/**
  A model of `useAutoReducer`: a hook that validates that custom action names
  do not collide with state keys, wires a reducer over two kinds of action
  descriptor, and builds a dispatcher with one setter per state key and one
  callable per custom action.

  State values are of an opaque type `V`. The external state container is
  modelled as an in-order fold of the reducer over the descriptors it has
  processed.
*/
module AutoReducer {
  import opened Wrappers

  // ---------------------------------------------------------------------------
  // Data model
  // ---------------------------------------------------------------------------

  /** A state record: string keys to values. */
  type State<V> = map<string, V>

  /**
    A custom action factory `state => (...args) => partial`, uncurried: given
    the current state and the positional arguments, the partial state update
    to merge over the current state.
  */
  type Factory<!V> = (State<V>, seq<V>) -> State<V>

  /**
    An object as seen through `Object.keys`: its own keys in enumeration order
    and the value at each key.
  */
  datatype Obj<T> = Obj(keys: seq<string>, at: map<string, T>) {
    /** The enumeration lists every own key exactly once. */
    predicate Wf() {
      && (forall i, j :: 0 <= i < j < |keys| ==> keys[i] != keys[j])
      && (forall k :: k in at ==> k in keys)
      && (forall i :: 0 <= i < |keys| ==> keys[i] in at)
    }
  }

  /**
    The action descriptor handed to the reducer. `StateSet` is `type: 'state'`,
    `CustomInvoke` is `type: 'custom'`, and `OtherType` is a descriptor of any
    other type, which takes the `default` branch. `args` is `None` when the
    descriptor's `args` is absent or not an array.
  */
  datatype Descriptor<!V> =
    | StateSet(key: string, value: V)
    | CustomInvoke(key: string, factory: Factory<V>, args: Option<seq<V>>)
    | OtherType(key: string, factory: Factory<V>, args: Option<seq<V>>)

  /** The two exceptions the hook can throw. */
  datatype Error =
    | DuplicateKey(name: string)   // raised at construction
    | NotInitialized               // raised by the reducer

  /** The message of the thrown `Error`. */
  function Message(e: Error): string {
    match e
    case DuplicateKey(name) => "Duplicate key in state and actions: " + name
    case NotInitialized => "Somehow you tried to dispatch an action that was not initialized"
  }

  /** `actions || {}`: the registered factories, none when actions are absent. */
  function Table<V>(actions: Option<Obj<Factory<V>>>): map<string, Factory<V>> {
    if actions.Some? then actions.value.at else map[]
  }

  /** `Object.keys(actions || {})`. */
  function Names<V>(actions: Option<Obj<Factory<V>>>): seq<string> {
    if actions.Some? then actions.value.keys else []
  }

  // ---------------------------------------------------------------------------
  // Construction-time validation
  // ---------------------------------------------------------------------------

  /** The first of `names` that is already a key of `state`, if any. */
  function FirstCollision<V>(names: seq<string>, state: State<V>): (r: Option<string>)
    ensures r.None? <==> forall i :: 0 <= i < |names| ==> names[i] !in state
    ensures r.Some? ==> exists i :: && 0 <= i < |names| && names[i] == r.value && r.value in state
                                    && forall j :: 0 <= j < i ==> names[j] !in state
  {
    if names == [] then None
    else if names[0] in state then Some(names[0])
    else
      var r := FirstCollision(names[1..], state);
      assert r.Some? ==> exists i :: && 0 <= i < |names[1..]| && names[1..][i] == r.value
                                     && forall j :: 0 <= j < i ==> names[1..][j] !in state;
      assert forall i :: 0 < i < |names| ==> names[i] == names[1..][i - 1];
      r
  }

  /** With well-formed actions, some action name collides exactly when the key sets overlap. */
  lemma CollisionIffOverlap<V>(state: State<V>, actions: Option<Obj<Factory<V>>>)
    requires actions.Some? ==> actions.value.Wf()
    ensures FirstCollision(Names(actions), state).None? <==> Table(actions).Keys !! state.Keys
    ensures FirstCollision(Names(actions), state).Some? ==> FirstCollision(Names(actions), state).value in Table(actions).Keys * state.Keys
  {
    var names := Names(actions);
    if FirstCollision(names, state).Some? {
      var i :| 0 <= i < |names| && names[i] == FirstCollision(names, state).value && names[i] in state;
      assert names[i] in Table(actions);
    } else {
      forall k | k in Table(actions)
        ensures k !in state
      {
        var i :| 0 <= i < |names| && names[i] == k;
      }
    }
  }

  /**
    The duplicate-key check: visits the action names in enumeration order and
    stops at the first one that is an own key of the initial state.
  */
  method CheckKeys<V>(initialState: Obj<V>, actions: Option<Obj<Factory<V>>>) returns (dup: Option<string>)
    ensures dup == FirstCollision(Names(actions), initialState.at)
  {
    var names := Names(actions);
    var i := 0;
    while i < |names|
      invariant 0 <= i <= |names|
      invariant FirstCollision(names, initialState.at) == FirstCollision(names[i..], initialState.at)
    {
      if names[i] in initialState.at {
        return Some(names[i]);
      }
      assert names[i..][1..] == names[i + 1..];
      i := i + 1;
    }
    return None;
  }

  // ---------------------------------------------------------------------------
  // The reducer and the state container
  // ---------------------------------------------------------------------------

  /** The argument list a custom action is invoked with: the supplied one, or none. */
  function Forwarded<V>(args: Option<seq<V>>): seq<V> {
    if args.Some? then args.value else []
  }

  /**
    The reducer, closed over the actions given at construction. A `'state'`
    descriptor sets one key; any other descriptor is checked against the
    registered names and, if registered, merges the partial update computed by
    the descriptor's own factory over the previous state.
  */
  function Reduce<V>(actions: Option<Obj<Factory<V>>>, last: State<V>, action: Descriptor<V>): Result<State<V>, Error> {
    match action
    case StateSet(key, value) => Ok(last[key := value])
    case _ =>
      if actions.Some? && action.key in actions.value.at then
        if action.args.Some? && |action.args.value| > 0 then
          Ok(last + action.factory(last, action.args.value))
        else
          Ok(last + action.factory(last, []))
      else
        Err(NotInitialized)
  }

  /** A `'state'` descriptor never fails and changes exactly its own key. */
  lemma StateActionSets<V>(actions: Option<Obj<Factory<V>>>, last: State<V>, key: string, value: V)
    ensures Reduce(actions, last, StateSet(key, value)).Ok?
    ensures var next := Reduce(actions, last, StateSet(key, value)).value;
            && next.Keys == last.Keys + {key}
            && next[key] == value
            && forall k :: k in last && k != key ==> next[k] == last[k]
  {
  }

  /**
    A registered custom (or other-typed) descriptor yields the previous state
    with the factory's partial update merged over it.
  */
  lemma CustomActionMerges<V>(actions: Option<Obj<Factory<V>>>, last: State<V>, action: Descriptor<V>)
    requires !action.StateSet? && action.key in Table(actions)
    ensures var partial := action.factory(last, Forwarded(action.args));
            && Reduce(actions, last, action) == Ok(last + partial)
            && Reduce(actions, last, action).value.Keys == last.Keys + partial.Keys
            && (forall k :: k in partial ==> Reduce(actions, last, action).value[k] == partial[k])
            && (forall k :: k in last && k !in partial ==> Reduce(actions, last, action).value[k] == last[k])
  {
  }

  /**
    The reducer's two branches on `args` agree: an empty argument list and
    absent arguments both invoke the factory with no arguments.
  */
  lemma ArgumentsForwarded<V>(actions: Option<Obj<Factory<V>>>, last: State<V>, key: string, factory: Factory<V>)
    requires key in Table(actions)
    ensures Reduce(actions, last, CustomInvoke(key, factory, Some([]))) == Reduce(actions, last, CustomInvoke(key, factory, None))
  {
  }

  /** A non-`'state'` descriptor fails, with the "not initialized" error, exactly when its key is not registered. */
  lemma UnregisteredActionFails<V>(actions: Option<Obj<Factory<V>>>, last: State<V>, action: Descriptor<V>)
    requires !action.StateSet?
    ensures Reduce(actions, last, action).Err? <==> action.key !in Table(actions)
    ensures Reduce(actions, last, action).Err? ==> Reduce(actions, last, action).error == NotInitialized
  {
  }

  /**
    The state container: applies the reducer to each processed descriptor in
    order, starting from `state`. A throwing reducer ends the run with its error.
  */
  function Run<V>(actions: Option<Obj<Factory<V>>>, state: State<V>, processed: seq<Descriptor<V>>): (r: Result<State<V>, Error>)
    ensures r.Err? ==> r.error == NotInitialized
    decreases |processed|
  {
    if processed == [] then Ok(state)
    else
      match Reduce(actions, state, processed[0])
      case Err(e) => Err(e)
      case Ok(next) => Run(actions, next, processed[1..])
  }

  /** Dispatching one more descriptor applies the reducer once more to the latest state. */
  lemma {:induction false} RunAppend<V>(actions: Option<Obj<Factory<V>>>, state: State<V>, processed: seq<Descriptor<V>>, action: Descriptor<V>)
    ensures Run(actions, state, processed + [action]) ==
            match Run(actions, state, processed)
            case Err(e) => Err(e)
            case Ok(latest) => Reduce(actions, latest, action)
    decreases |processed|
  {
    if processed == [] {
      assert processed + [action] == [action];
    } else {
      assert (processed + [action])[0] == processed[0];
      assert (processed + [action])[1..] == processed[1..] + [action];
      match Reduce(actions, state, processed[0])
      case Err(e) =>
      case Ok(next) => RunAppend(actions, next, processed[1..], action);
    }
  }

  /** Descriptors that only set keys the state already has never fail and keep the key set. */
  lemma {:induction false} StateSetsKeepKeys<V>(actions: Option<Obj<Factory<V>>>, state: State<V>, processed: seq<Descriptor<V>>)
    requires forall i :: 0 <= i < |processed| ==> processed[i].StateSet? && processed[i].key in state
    ensures Run(actions, state, processed).Ok?
    ensures Run(actions, state, processed).value.Keys == state.Keys
    decreases |processed|
  {
    if processed != [] {
      var next := state[processed[0].key := processed[0].value];
      assert next.Keys == state.Keys;
      assert forall i :: 0 <= i < |processed[1..]| ==> processed[1..][i] == processed[i + 1];
      StateSetsKeepKeys(actions, next, processed[1..]);
    }
  }

  // ---------------------------------------------------------------------------
  // The dispatcher
  // ---------------------------------------------------------------------------

  /**
    A dispatcher entry, as the descriptor it emits when called: a setter for a
    state key, or a callable for a custom action that carries its factory.
  */
  datatype Entry<!V> = Setter(key: string) | Invoker(key: string, factory: Factory<V>) {
    /** Calling a setter with `value`. */
    function Set(value: V): Descriptor<V>
      requires Setter?
    {
      StateSet(key, value)
    }

    /** Calling a custom-action callable with the argument list `args`. */
    function Invoke(args: seq<V>): Descriptor<V>
      requires Invoker?
    {
      CustomInvoke(key, factory, Some(args))
    }
  }

  type Dispatcher<!V> = map<string, Entry<V>>

  /**
    `d` is the dispatcher for `state` and `table`: its keys are exactly theirs,
    each state key holds its setter, each action name its callable.
  */
  ghost predicate Dispatches<V>(d: Dispatcher<V>, state: State<V>, table: map<string, Factory<V>>) {
    && d.Keys == state.Keys + table.Keys
    && (forall k :: k in state ==> d[k] == Setter(k))
    && (forall k :: k in table ==> d[k] == Invoker(k, table[k]))
  }

  /** The state dispatcher: one setter per key of the initial state, in enumeration order. */
  method BuildStateDispatcher<V>(initialState: Obj<V>) returns (sd: Dispatcher<V>)
    requires initialState.Wf()
    ensures sd.Keys == initialState.at.Keys
    ensures forall k :: k in sd ==> sd[k] == Setter(k)
  {
    var names := initialState.keys;
    sd := map[];
    for i := 0 to |names|
      invariant forall k :: k in sd <==> k in names[..i]
      invariant forall k :: k in sd ==> sd[k] == Setter(k)
    {
      assert names[..i + 1] == names[..i] + [names[i]];
      sd := sd[names[i] := Setter(names[i])];
    }
    assert names[..|names|] == names;
  }

  /**
    The custom dispatcher: absent when actions are absent, otherwise one
    callable per action name carrying that action's factory.
  */
  method BuildCustomDispatcher<V>(actions: Option<Obj<Factory<V>>>) returns (cd: Option<Dispatcher<V>>)
    requires actions.Some? ==> actions.value.Wf()
    ensures cd.Some? <==> actions.Some?
    ensures cd.Some? ==> cd.value.Keys == actions.value.at.Keys
    ensures cd.Some? ==> forall k :: k in cd.value ==> cd.value[k] == Invoker(k, actions.value.at[k])
  {
    if actions.None? {
      return None;
    }
    var names := actions.value.keys;
    var table := actions.value.at;
    var acc: Dispatcher<V> := map[];
    for i := 0 to |names|
      invariant forall k :: k in acc <==> k in names[..i]
      invariant forall k :: k in acc ==> k in table && acc[k] == Invoker(k, table[k])
    {
      assert names[..i + 1] == names[..i] + [names[i]];
      acc := acc[names[i] := Invoker(names[i], table[names[i]])];
    }
    assert names[..|names|] == names;
    cd := Some(acc);
  }

  /** `{ ...stateDispatcher, ...customDispatcher }`, where spreading an absent dispatcher adds nothing. */
  function Merge<V>(sd: Dispatcher<V>, cd: Option<Dispatcher<V>>): Dispatcher<V> {
    if cd.Some? then sd + cd.value else sd
  }

  /** With disjoint key sets the merge keeps every entry of both dispatchers. */
  lemma MergeKeepsEveryEntry<V>(sd: Dispatcher<V>, cd: Option<Dispatcher<V>>)
    requires cd.Some? ==> sd.Keys !! cd.value.Keys
    ensures Merge(sd, cd).Keys == sd.Keys + (if cd.Some? then cd.value.Keys else {})
    ensures forall k :: k in sd ==> Merge(sd, cd)[k] == sd[k]
    ensures cd.Some? ==> forall k :: k in cd.value ==> Merge(sd, cd)[k] == cd.value[k]
  {
  }

  /** The setter for a state key emits a `'state'` descriptor for that key and the given value. */
  lemma SetterEmits<V>(d: Dispatcher<V>, state: State<V>, table: map<string, Factory<V>>, k: string, value: V)
    requires Dispatches(d, state, table) && k in state
    ensures k in d && d[k].Setter? && d[k].Set(value) == StateSet(k, value)
  {
  }

  /** The callable for an action emits a `'custom'` descriptor with that action's factory and exactly the given arguments. */
  lemma InvokerEmits<V>(d: Dispatcher<V>, state: State<V>, table: map<string, Factory<V>>, k: string, args: seq<V>)
    requires Dispatches(d, state, table) && k in table
    ensures k in d && d[k].Invoker? && d[k].Invoke(args) == CustomInvoke(k, table[k], Some(args))
  {
  }

  /** `action` is what calling some setter of `d` emits. */
  ghost predicate FromSetter<V>(d: Dispatcher<V>, action: Descriptor<V>) {
    // a setter emits StateSet(key, v) for the value v it is called with
    exists k :: k in d && d[k].Setter? && action.StateSet? && action == d[k].Set(action.value)
  }

  /** `action` is what calling some entry of `d` emits. */
  ghost predicate FromDispatcher<V>(d: Dispatcher<V>, action: Descriptor<V>) {
    || FromSetter(d, action)
    // a callable emits CustomInvoke(key, factory, Some(args)) for the arguments it is called with
    || exists k :: k in d && d[k].Invoker? && action.CustomInvoke? && action.args.Some? && action == d[k].Invoke(action.args.value)
  }

  /** The reducer's membership guard passes for every descriptor the dispatcher emits. */
  lemma EmittedNeverFails<V>(d: Dispatcher<V>, initial: State<V>, actions: Option<Obj<Factory<V>>>, last: State<V>, action: Descriptor<V>)
    requires Dispatches(d, initial, Table(actions))
    requires FromDispatcher(d, action)
    ensures Reduce(actions, last, action).Ok?
  {
    if !FromSetter(d, action) {
      var k :| k in d && d[k].Invoker? && action.CustomInvoke? && action.args.Some? && action == d[k].Invoke(action.args.value);
      assert k in Table(actions);
    }
  }

  /** A setter of the dispatcher only sets an initial-state key. */
  lemma SetterTargetsStateKey<V>(d: Dispatcher<V>, initial: State<V>, table: map<string, Factory<V>>, action: Descriptor<V>)
    requires Dispatches(d, initial, table)
    requires FromSetter(d, action)
    ensures action.StateSet? && action.key in initial
  {
    var k :| k in d && d[k].Setter? && action.StateSet? && action == d[k].Set(action.value);
    assert k in initial;
  }

  /** Processing only descriptors emitted by the dispatcher never fails. */
  lemma {:induction false} EmittedRunSucceeds<V>(d: Dispatcher<V>, initial: State<V>, actions: Option<Obj<Factory<V>>>, state: State<V>, processed: seq<Descriptor<V>>)
    requires Dispatches(d, initial, Table(actions))
    requires forall i :: 0 <= i < |processed| ==> FromDispatcher(d, processed[i])
    ensures Run(actions, state, processed).Ok?
    decreases |processed|
  {
    if processed != [] {
      EmittedNeverFails(d, initial, actions, state, processed[0]);
      var next := Reduce(actions, state, processed[0]).value;
      assert forall i :: 0 <= i < |processed[1..]| ==> processed[1..][i] == processed[i + 1];
      EmittedRunSucceeds(d, initial, actions, next, processed[1..]);
    }
  }

  /** Processing only setter-emitted descriptors keeps the initial state's key set. */
  lemma SetterRunKeepsKeys<V>(d: Dispatcher<V>, initial: State<V>, actions: Option<Obj<Factory<V>>>, processed: seq<Descriptor<V>>)
    requires Dispatches(d, initial, Table(actions))
    requires forall i :: 0 <= i < |processed| ==> FromSetter(d, processed[i])
    ensures Run(actions, initial, processed).Ok?
    ensures Run(actions, initial, processed).value.Keys == initial.Keys
  {
    forall i | 0 <= i < |processed|
      ensures processed[i].StateSet? && processed[i].key in initial
    {
      SetterTargetsStateKey(d, initial, Table(actions), processed[i]);
    }
    StateSetsKeepKeys(actions, initial, processed);
  }

  // ---------------------------------------------------------------------------
  // The hook
  // ---------------------------------------------------------------------------

  /** What the hook returns: the current state and the dispatcher. */
  datatype Hook<!V> = Hook(state: State<V>, dispatcher: Dispatcher<V>)

  /**
    One call of the hook. `mounted` is the state the container was created
    with, the `initialState` of the first call: `useReducer` reads its initial
    state only once. `processed` are the descriptors the container has applied
    before this call (none on the first). The duplicate-key check and the
    state dispatcher use this call's own `initialState`. The duplicate-key
    check runs first; a reducer error surfaces here; otherwise the state is the
    container's and the dispatcher covers every state key and action name.
  */
  method UseAutoReducer<V>(initialState: Obj<V>, actions: Option<Obj<Factory<V>>>, mounted: State<V>, processed: seq<Descriptor<V>>)
    returns (r: Result<Hook<V>, Error>)
    requires initialState.Wf()
    requires actions.Some? ==> actions.value.Wf()
    ensures r.Err? && r.error.DuplicateKey? <==> !(Table(actions).Keys !! initialState.at.Keys)
    ensures var dup := FirstCollision(Names(actions), initialState.at);
            dup.Some? ==> r == Err(DuplicateKey(dup.value))
    ensures r.Err? && !r.error.DuplicateKey? <==>
            Table(actions).Keys !! initialState.at.Keys && Run(actions, mounted, processed).Err?
    ensures r.Ok? ==> r.value.state == Run(actions, mounted, processed).value
    ensures r.Ok? ==> r.value.dispatcher.Keys == initialState.at.Keys + Table(actions).Keys
    ensures r.Ok? ==> Dispatches(r.value.dispatcher, initialState.at, Table(actions))
  {
    CollisionIffOverlap(initialState.at, actions);
    var dup := CheckKeys(initialState, actions);
    if dup.Some? {
      return Err(DuplicateKey(dup.value));
    }
    var container := Run(actions, mounted, processed);
    if container.Err? {
      return Err(container.error);
    }
    var sd := BuildStateDispatcher(initialState);
    var cd := BuildCustomDispatcher(actions);
    MergeKeepsEveryEntry(sd, cd);
    r := Ok(Hook(container.value, Merge(sd, cd)));
  }
}
