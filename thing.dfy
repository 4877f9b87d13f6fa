/** The Thing class: a name and three string-keyed maps that its methods read and
    update in place. Each method is proved to do what the matching function of
    ThingModel does to the whole state, and states its effect field by field. */
module Things {
  import opened Values
  import M = ThingModel

  class Thing {
    /** action name -> handler, or None for an action declared with a null handler */
    var actionHandlers: map<string, Option<M.Handler>>
    /** property name -> listeners registered by onUpdateProperty, in order */
    var propListeners: map<string, seq<M.Listener>>
    /** property name -> current value */
    var propStates: map<string, Value>
    /** name of the Thing, fixed at construction */
    const name: string

    /** The whole state as a value. */
    function State(): M.ThingState
      reads this
    {
      M.ThingState(name, actionHandlers, propListeners, propStates)
    }

    constructor (name: string)
      ensures this.name == name
      ensures actionHandlers == map[] && propListeners == map[] && propStates == map[]
      ensures State() == M.Initial(name) && M.Wf(State())
    {
      this.name := name;
      actionHandlers := map[];
      propListeners := map[];
      propStates := map[];
    }

    /** Resolves with the handler's result when a handler is bound; rejects when the action
        is declared with a null handler and when it was never declared. Changes nothing.
        An omitted parameter is passed as Undefined. */
    method InvokeAction(actionName: string, parameter: Value) returns (r: Result<Value>)
      ensures r.Ok? <==> actionName in actionHandlers && actionHandlers[actionName].Some?
      ensures r.Ok? ==> r.value == actionHandlers[actionName].value(parameter)
      ensures r.Err? ==> r.msg == "No handler for " + actionName
      ensures r == M.InvokeAction(State(), actionName, parameter)
    {
      var handler := if actionName in actionHandlers then actionHandlers[actionName] else None;
      if handler.Some? {
        r := Ok(handler.value(parameter));
      } else {
        r := Err("No handler for " + actionName);
      }
    }

    /** Overwrites the value of a property whose current value is truthy and resolves with
        the new value; otherwise rejects and changes nothing. Listeners are not called. */
    method SetProperty(propertyName: string, newValue: Value) returns (r: Result<Value>)
      modifies this
      ensures r.Ok? <==> old(M.IsLive(State(), propertyName))
      ensures r.Ok? ==> r.value == newValue && propStates == old(propStates)[propertyName := newValue]
      ensures r.Err? ==> r.msg == "No property called " + propertyName && propStates == old(propStates)
      ensures propListeners == old(propListeners) && actionHandlers == old(actionHandlers)
      ensures (State(), r) == M.SetProperty(old(State()), propertyName, newValue)
    {
      if propertyName in propStates && Truthy(propStates[propertyName]) {
        propStates := propStates[propertyName := newValue];
        r := Ok(newValue);
      } else {
        r := Err("No property called " + propertyName);
      }
    }

    /** Resolves with the current value of a property whose value is truthy; rejects for a
        falsy value and for an absent property. Changes nothing. */
    method GetProperty(propertyName: string) returns (r: Result<Value>)
      ensures r.Ok? <==> propertyName in propStates && Truthy(propStates[propertyName])
      ensures r.Ok? ==> r.value == propStates[propertyName]
      ensures r.Err? ==> r.msg == "No property called " + propertyName
      ensures r == M.GetProperty(State(), propertyName)
    {
      if propertyName in propStates && Truthy(propStates[propertyName]) {
        r := Ok(propStates[propertyName]);
      } else {
        r := Err("No property called " + propertyName);
      }
    }

    /** Event stub: does nothing and returns nothing; having no modifies clause, it changes nothing. */
    method EmitEvent(event: Value)
    {
    }

    /** Event stub: does nothing and returns this Thing. */
    method AddListener(eventName: string, listener: M.EventListener) returns (self: Thing)
      ensures self == this
    {
      self := this;
    }

    /** Event stub: does nothing and returns this Thing. */
    method RemoveListener(eventName: string, listener: M.EventListener) returns (self: Thing)
      ensures self == this
    {
      self := this;
    }

    /** Event stub: does nothing and returns this Thing. */
    method RemoveAllListeners(eventName: string) returns (self: Thing)
      ensures self == this
    {
      self := this;
    }

    /** Binds the handler, replacing any earlier one, whether or not the action was declared. */
    method OnInvokeAction(actionName: string, handler: M.Handler) returns (self: Thing)
      modifies this
      ensures self == this
      ensures actionHandlers == old(actionHandlers)[actionName := Some(handler)]
      ensures propListeners == old(propListeners) && propStates == old(propStates)
      ensures State() == M.OnInvokeAction(old(State()), actionName, handler)
    {
      actionHandlers := actionHandlers[actionName := Some(handler)];
      self := this;
    }

    /** Appends the listener to the property's list when that list exists; otherwise
        changes nothing. */
    method OnUpdateProperty(propertyName: string, listener: M.Listener) returns (self: Thing)
      modifies this
      ensures self == this
      ensures propertyName in old(propListeners) ==>
        propListeners == old(propListeners)[propertyName := old(propListeners)[propertyName] + [listener]]
      ensures propertyName !in old(propListeners) ==> propListeners == old(propListeners)
      ensures propStates == old(propStates) && actionHandlers == old(actionHandlers)
      ensures State() == M.OnUpdateProperty(old(State()), propertyName, listener)
    {
      if propertyName in propListeners {
        propListeners := propListeners[propertyName := propListeners[propertyName] + [listener]];
      }
      self := this;
    }

    /** Declares a property: its value is the initial value if truthy, else null, and its
        listener list starts empty. The value type is ignored; an omitted initial value is
        passed as Undefined. */
    method AddProperty(propertyName: string, valueType: Value, initialValue: Value) returns (self: Thing)
      modifies this
      ensures self == this
      ensures propStates == old(propStates)[propertyName := if Truthy(initialValue) then initialValue else Null]
      ensures propListeners == old(propListeners)[propertyName := []]
      ensures actionHandlers == old(actionHandlers)
      ensures State() == M.AddProperty(old(State()), propertyName, initialValue)
    {
      propStates := propStates[propertyName := if Truthy(initialValue) then initialValue else Null];
      propListeners := propListeners[propertyName := []];
      self := this;
    }

    /** Declares an action with a null handler, unbinding any earlier one. The schemas are ignored. */
    method AddAction(actionName: string, inputType: Value, outputType: Value) returns (self: Thing)
      modifies this
      ensures self == this
      ensures actionHandlers == old(actionHandlers)[actionName := None]
      ensures propListeners == old(propListeners) && propStates == old(propStates)
      ensures State() == M.AddAction(old(State()), actionName)
    {
      actionHandlers := actionHandlers[actionName := None];
      self := this;
    }

    /** Event stub: declares nothing and returns this Thing. */
    method AddEvent(eventName: string) returns (self: Thing)
      ensures self == this
    {
      self := this;
    }

    /** Deletes the property's listeners and value, and reports false. */
    method RemoveProperty(propertyName: string) returns (removed: bool)
      modifies this
      ensures !removed
      ensures propStates == old(propStates) - {propertyName}
      ensures propListeners == old(propListeners) - {propertyName}
      ensures actionHandlers == old(actionHandlers)
      ensures State() == M.RemoveProperty(old(State()), propertyName)
    {
      propListeners := propListeners - {propertyName};
      propStates := propStates - {propertyName};
      removed := false;
    }

    /** Deletes the action's handler slot, and reports false. */
    method RemoveAction(actionName: string) returns (removed: bool)
      modifies this
      ensures !removed
      ensures actionHandlers == old(actionHandlers) - {actionName}
      ensures propListeners == old(propListeners) && propStates == old(propStates)
      ensures State() == M.RemoveAction(old(State()), actionName)
    {
      actionHandlers := actionHandlers - {actionName};
      removed := false;
    }

    /** Event stub: removes nothing, and reports false. */
    method RemoveEvent(eventName: string) returns (removed: bool)
      ensures !removed
    {
      removed := false;
    }
  }

  /** A client that uses only the contracts above: it declares "temperature" with 20, registers
      a listener, writes 25 and reads 25 back; then writes 0, after which the read is rejected;
      then declares "alarm" without an initial value, after which a write is rejected. */
  method TemperatureScenario(alarm: Value)
    requires Truthy(alarm)
  {
    var t := new Thing("device");
    var self := t.AddProperty("temperature", Null, Num(20.0));
    self := t.OnUpdateProperty("temperature", (newValue, oldValue) => ());
    var r := t.SetProperty("temperature", Num(25.0));
    assert r == Ok(Num(25.0));
    r := t.GetProperty("temperature");
    assert r == Ok(Num(25.0));
    assert |t.propListeners["temperature"]| == 1;

    // writing a falsy value makes the property unreadable
    r := t.SetProperty("temperature", Num(0.0));
    assert r == Ok(Num(0.0));
    r := t.GetProperty("temperature");
    assert r.Err?;

    // a property declared without an initial value can be neither read nor written
    self := t.AddProperty("alarm", Null, Undefined);
    r := t.SetProperty("alarm", alarm);
    assert r.Err?;
  }

  /** A client that declares the action "reboot" without a handler, so invoking it is rejected;
      binds a handler returning "ok", so invoking it resolves with "ok"; then removes the
      action, so invoking it is rejected again. */
  method RebootScenario()
  {
    var t := new Thing("device");
    var self := t.AddAction("reboot", Null, Null);
    var r := t.InvokeAction("reboot", Undefined);
    assert r.Err?;
    self := t.OnInvokeAction("reboot", p => Str("ok"));
    r := t.InvokeAction("reboot", Undefined);
    assert r == Ok(Str("ok"));
    var removed := t.RemoveAction("reboot");
    r := t.InvokeAction("reboot", Undefined);
    assert !removed && r.Err?;
  }
}
