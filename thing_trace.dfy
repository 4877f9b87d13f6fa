/** Sequences of calls on one Thing, and what holds along any of them. */
module ThingTrace {
  import opened Values
  import M = ThingModel

  /** One call of the Thing's public surface. Schema arguments, which the Thing ignores, are left out. */
  datatype Op =
    | InvokeAction(target: string, parameter: Value)
    | SetProperty(target: string, newValue: Value)
    | GetProperty(target: string)
    | OnInvokeAction(target: string, handler: M.Handler)
    | OnUpdateProperty(target: string, listener: M.Listener)
    | AddProperty(target: string, initialValue: Value)
    | AddAction(target: string)
    | AddEvent(target: string)
    | RemoveProperty(target: string)
    | RemoveAction(target: string)
    | RemoveEvent(target: string)
    | EmitEvent(event: Value)
    | AddListener(target: string, eventListener: M.EventListener)
    | RemoveListener(target: string, eventListener: M.EventListener)
    | RemoveAllListeners(target: string)

  /** What a call hands back: a settled promise, the Thing itself, a boolean, or nothing. */
  datatype Reply = Settled(result: Result<Value>) | This | Flag(b: bool) | Done

  function Step(s: M.ThingState, op: Op): (M.ThingState, Reply)
  {
    match op
    case InvokeAction(n, p) => (s, Settled(M.InvokeAction(s, n, p)))
    case SetProperty(n, v) => var (t, r) := M.SetProperty(s, n, v); (t, Settled(r))
    case GetProperty(n) => (s, Settled(M.GetProperty(s, n)))
    case OnInvokeAction(n, h) => (M.OnInvokeAction(s, n, h), This)
    case OnUpdateProperty(n, l) => (M.OnUpdateProperty(s, n, l), This)
    case AddProperty(n, init) => (M.AddProperty(s, n, init), This)
    case AddAction(n) => (M.AddAction(s, n), This)
    case AddEvent(_) => (s, This)
    case RemoveProperty(n) => (M.RemoveProperty(s, n), Flag(false))
    case RemoveAction(n) => (M.RemoveAction(s, n), Flag(false))
    case RemoveEvent(_) => (s, Flag(false))
    case EmitEvent(_) => (s, Done)
    case AddListener(_, _) => (s, This)
    case RemoveListener(_, _) => (s, This)
    case RemoveAllListeners(_) => (s, This)
  }

  /** The state after performing `ops` in order. */
  function Run(s: M.ThingState, ops: seq<Op>): M.ThingState
    decreases |ops|
  {
    if ops == [] then s else Run(Step(s, ops[0]).0, ops[1..])
  }

  /** The replies to `ops`, one per call, in order. */
  function Replies(s: M.ThingState, ops: seq<Op>): (rs: seq<Reply>)
    ensures |rs| == |ops|
    decreases |ops|
  {
    if ops == [] then [] else [Step(s, ops[0]).1] + Replies(Step(s, ops[0]).0, ops[1..])
  }

  /** Calls that name property `n`. */
  predicate TouchesProperty(op: Op, n: string)
  {
    (op.SetProperty? || op.OnUpdateProperty? || op.AddProperty? || op.RemoveProperty?) && op.target == n
  }

  /** Calls that name action `n`. */
  predicate TouchesAction(op: Op, n: string)
  {
    (op.OnInvokeAction? || op.AddAction? || op.RemoveAction?) && op.target == n
  }

  /** Calls that read property `n` or try to write it. */
  predicate AccessesProperty(op: Op, n: string)
  {
    (op.GetProperty? || op.SetProperty?) && op.target == n
  }

  /** The only call that can make a dead property readable again. */
  predicate RevivesProperty(op: Op, n: string)
  {
    op.AddProperty? && op.target == n && Truthy(op.initialValue)
  }

  /** Calls that reset or discard the listener list of property `n`. */
  predicate RedeclaresProperty(op: Op, n: string)
  {
    (op.AddProperty? || op.RemoveProperty?) && op.target == n
  }

  /** Calls that read, or are stubs: they never change the state. */
  predicate IsQuery(op: Op)
  {
    op.InvokeAction? || op.GetProperty? || op.AddEvent? || op.RemoveEvent? || op.EmitEvent?
    || op.AddListener? || op.RemoveListener? || op.RemoveAllListeners?
  }

  /** The listener one call registers for property `n`, if it is onUpdateProperty(n, _). */
  function Registers(op: Op, n: string): seq<M.Listener>
  {
    if op.OnUpdateProperty? && op.target == n then [op.listener] else []
  }

  /** The listeners that `ops` register for property `n`, in call order. */
  function Registered(ops: seq<Op>, n: string): seq<M.Listener>
    decreases |ops|
  {
    if ops == [] then [] else Registers(ops[0], n) + Registered(ops[1..], n)
  }

  /** Property `n` has the same value and listeners in both states. */
  ghost predicate SameProperty(s: M.ThingState, t: M.ThingState, n: string)
  {
    && (n in s.propStates <==> n in t.propStates)
    && (n in s.propStates ==> s.propStates[n] == t.propStates[n])
    && (n in s.propListeners <==> n in t.propListeners)
    && (n in s.propListeners ==> s.propListeners[n] == t.propListeners[n])
  }

  /** Action `n` has the same slot in both states. */
  ghost predicate SameAction(s: M.ThingState, t: M.ThingState, n: string)
  {
    && (n in s.actionHandlers <==> n in t.actionHandlers)
    && (n in s.actionHandlers ==> s.actionHandlers[n] == t.actionHandlers[n])
  }

  // ---------------------------------------------------------------------
  // One step
  // ---------------------------------------------------------------------

  lemma StepPreservesWf(s: M.ThingState, op: Op)
    requires M.Wf(s)
    ensures M.Wf(Step(s, op).0)
    ensures Step(s, op).0.name == s.name
  {
  }

  lemma StepPropertyFrame(s: M.ThingState, op: Op, n: string)
    requires !TouchesProperty(op, n)
    ensures SameProperty(s, Step(s, op).0, n)
  {
  }

  lemma StepActionFrame(s: M.ThingState, op: Op, n: string)
    requires !TouchesAction(op, n)
    ensures SameAction(s, Step(s, op).0, n)
  {
  }

  lemma StepKeepsDead(s: M.ThingState, op: Op, n: string)
    requires !M.IsLive(s, n) && !RevivesProperty(op, n)
    ensures !M.IsLive(Step(s, op).0, n)
    ensures AccessesProperty(op, n) ==> Step(s, op).1 == Settled(Err(M.NoProperty(n)))
  {
  }

  lemma StepListeners(s: M.ThingState, op: Op, n: string)
    requires n in s.propListeners && !RedeclaresProperty(op, n)
    ensures n in Step(s, op).0.propListeners
    ensures Step(s, op).0.propListeners[n]
         == s.propListeners[n] + Registers(op, n)
  {
  }

  // ---------------------------------------------------------------------
  // Whole traces
  // ---------------------------------------------------------------------

  /** Every state reachable by calls keeps the property maps' keys in step,
      and the name never changes. */
  lemma {:induction false} RunPreservesWf(s: M.ThingState, ops: seq<Op>)
    requires M.Wf(s)
    ensures M.Wf(Run(s, ops))
    ensures Run(s, ops).name == s.name
    decreases |ops|
  {
    if ops != [] {
      StepPreservesWf(s, ops[0]);
      RunPreservesWf(Step(s, ops[0]).0, ops[1..]);
    }
  }

  /** Every state reachable from a new Thing is well formed and keeps its name. */
  lemma ReachableWf(name: string, ops: seq<Op>)
    ensures M.Wf(Run(M.Initial(name), ops))
    ensures Run(M.Initial(name), ops).name == name
  {
    RunPreservesWf(M.Initial(name), ops);
  }

  /** Calls that do not name property `n` leave its value and listeners alone. */
  lemma {:induction false} PropertyFrame(s: M.ThingState, ops: seq<Op>, n: string)
    requires forall i :: 0 <= i < |ops| ==> !TouchesProperty(ops[i], n)
    ensures SameProperty(s, Run(s, ops), n)
    decreases |ops|
  {
    if ops != [] {
      StepPropertyFrame(s, ops[0], n);
      PropertyFrame(Step(s, ops[0]).0, ops[1..], n);
    }
  }

  /** Calls that do not name action `n` leave its handler slot alone. */
  lemma {:induction false} ActionFrame(s: M.ThingState, ops: seq<Op>, n: string)
    requires forall i :: 0 <= i < |ops| ==> !TouchesAction(ops[i], n)
    ensures SameAction(s, Run(s, ops), n)
    decreases |ops|
  {
    if ops != [] {
      StepActionFrame(s, ops[0], n);
      ActionFrame(Step(s, ops[0]).0, ops[1..], n);
    }
  }

  /** The last binding wins: after onInvokeAction(n, h), and until `n` is bound, declared or
      removed again, invoking `n` yields h's result. */
  lemma LastBindingWins(s: M.ThingState, n: string, h: M.Handler, ops: seq<Op>, p: Value)
    requires forall i :: 0 <= i < |ops| ==> !TouchesAction(ops[i], n)
    ensures M.InvokeAction(Run(s, [OnInvokeAction(n, h)] + ops), n, p) == Ok(h(p))
  {
    var bound := M.OnInvokeAction(s, n, h);
    assert ([OnInvokeAction(n, h)] + ops)[1..] == ops;
    assert Run(s, [OnInvokeAction(n, h)] + ops) == Run(bound, ops);
    ActionFrame(bound, ops, n);
  }

  /** A property whose value is falsy or absent stays dead until it is re-declared with a
      truthy initial value: every get and set of it along the way is rejected. */
  lemma {:induction false} DeadPropertyStaysDead(s: M.ThingState, ops: seq<Op>, n: string)
    requires !M.IsLive(s, n)
    requires forall i :: 0 <= i < |ops| ==> !RevivesProperty(ops[i], n)
    ensures !M.IsLive(Run(s, ops), n)
    ensures forall i :: 0 <= i < |ops| && AccessesProperty(ops[i], n) ==>
              Replies(s, ops)[i] == Settled(Err(M.NoProperty(n)))
    decreases |ops|
  {
    if ops != [] {
      var t := Step(s, ops[0]).0;
      StepKeepsDead(s, ops[0], n);
      DeadPropertyStaysDead(t, ops[1..], n);
      forall i | 0 <= i < |ops| && AccessesProperty(ops[i], n)
        ensures Replies(s, ops)[i] == Settled(Err(M.NoProperty(n)))
      {
        if i > 0 {
          assert ops[1..][i - 1] == ops[i];
        }
      }
    }
  }

  /** Listeners accumulate in call order: until property `n` is re-declared or removed, its
      list is the old list followed by every listener registered for it, in order. */
  lemma {:induction false} ListenersInOrder(s: M.ThingState, ops: seq<Op>, n: string)
    requires n in s.propListeners
    requires forall i :: 0 <= i < |ops| ==> !RedeclaresProperty(ops[i], n)
    ensures n in Run(s, ops).propListeners
    ensures Run(s, ops).propListeners[n] == s.propListeners[n] + Registered(ops, n)
    decreases |ops|
  {
    if ops != [] {
      var t := Step(s, ops[0]).0;
      StepListeners(s, ops[0], n);
      assert forall i :: 0 <= i < |ops[1..]| ==> !RedeclaresProperty(ops[1..][i], n) by {
        forall i | 0 <= i < |ops[1..]| ensures ops[1..][i] == ops[i + 1] { }
      }
      ListenersInOrder(t, ops[1..], n);
      calc {
        Run(s, ops).propListeners[n];
        Run(t, ops[1..]).propListeners[n];
        t.propListeners[n] + Registered(ops[1..], n);
        (s.propListeners[n] + Registers(ops[0], n)) + Registered(ops[1..], n);
        s.propListeners[n] + (Registers(ops[0], n) + Registered(ops[1..], n));
        s.propListeners[n] + Registered(ops, n);
      }
    }
  }

  /** Right after addProperty(n, ...), the listener list is exactly the listeners registered
      since, in order. */
  lemma ListenersSinceDeclaration(s: M.ThingState, n: string, init: Value, ops: seq<Op>)
    requires forall i :: 0 <= i < |ops| ==> !RedeclaresProperty(ops[i], n)
    ensures n in Run(s, [AddProperty(n, init)] + ops).propListeners
    ensures Run(s, [AddProperty(n, init)] + ops).propListeners[n] == Registered(ops, n)
  {
    var declared := M.AddProperty(s, n, init);
    assert ([AddProperty(n, init)] + ops)[1..] == ops;
    assert Run(s, [AddProperty(n, init)] + ops) == Run(declared, ops);
    ListenersInOrder(declared, ops, n);
  }

  /** Writing a falsy value to a live property succeeds, and from then on, until the property
      is declared again with a truthy initial value, every get or set of it is rejected. */
  lemma FalsyWriteKillsProperty(s: M.ThingState, n: string, v: Value, ops: seq<Op>)
    requires M.IsLive(s, n) && !Truthy(v)
    requires forall i :: 0 <= i < |ops| ==> !RevivesProperty(ops[i], n)
    ensures Replies(s, [SetProperty(n, v)] + ops)[0] == Settled(Ok(v))
    ensures !M.IsLive(Run(s, [SetProperty(n, v)] + ops), n)
    ensures forall i :: 0 <= i < |ops| && AccessesProperty(ops[i], n) ==>
              Replies(s, [SetProperty(n, v)] + ops)[i + 1] == Settled(Err(M.NoProperty(n)))
  {
    var written := M.SetProperty(s, n, v).0;
    assert ([SetProperty(n, v)] + ops)[1..] == ops;
    assert Run(s, [SetProperty(n, v)] + ops) == Run(written, ops);
    assert Replies(s, [SetProperty(n, v)] + ops) == [Settled(Ok(v))] + Replies(written, ops);
    DeadPropertyStaysDead(written, ops, n);
  }

  /** Reads, invocations, removeEvent and the event stubs never change the Thing
      (handlers being pure, an invocation runs no code that could). */
  lemma {:induction false} QueriesChangeNothing(s: M.ThingState, ops: seq<Op>)
    requires forall i :: 0 <= i < |ops| ==> IsQuery(ops[i])
    ensures Run(s, ops) == s
    decreases |ops|
  {
    if ops != [] {
      assert Step(s, ops[0]).0 == s;
      QueriesChangeNothing(s, ops[1..]);
    }
  }
}
