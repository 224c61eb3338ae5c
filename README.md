# autoreducer in Dafny

A model of `useAutoReducer`, a React hook. It takes an initial state record and,
optionally, a record of custom action factories. It returns the current state and a
dispatcher. The dispatcher holds one setter per state key and one callable per custom
action. Every dispatcher call emits an action descriptor. The state container applies a
reducer to each descriptor in turn:

- a `'state'` descriptor sets one key;
- any other descriptor must name a registered action. Its factory is applied to the
  previous state and the call's arguments, and the partial update it returns is
  shallow-merged over the previous state.

Construction fails if an action name is already a key of the initial state.

Files:

- `wrappers.dfy`: module `Wrappers`, with `Option` and `Result`. A thrown exception is
  an `Err`.
- `auto_reducer.dfy`: module `AutoReducer`, the model itself:
  - the data model: `State`, `Factory`, `Obj`, `Descriptor`, `Error`;
  - the duplicate-key check: `FirstCollision` and the loop `CheckKeys`;
  - the reducer `Reduce` and the state container `Run`;
  - the dispatcher: `Entry`, the loops `BuildStateDispatcher` and `BuildCustomDispatcher`,
    and `Merge`;
  - the hook `UseAutoReducer`;
  - lemmas relating all of these.
- `scenarios.dfy`: module `Scenarios`, with the four usage scenarios of the test suite.
  Each one is a method whose postcondition is the state it ends up showing, or the
  message it throws.

Modelling choices:

- State values have an opaque type, the type parameter `V`. The scenarios use a small
  `Json` type made of numbers and objects.
- A custom action factory `state => (...args) => partial` is an uncurried total
  function `(State<V>, seq<V>) -> State<V>`.
- An object whose `Object.keys` order matters (the initial state and the actions) is an
  `Obj`. It holds the keys in enumeration order and a map from each key to its value.
  `Obj.Wf` says each own key is listed exactly once. The reducer's state is a plain map,
  because its key order is never observed.
- `hasOwnProperty.call(initialState, name)` and the truthiness test `actions[key]` are
  both key membership. Factories are functions, so a present entry is always truthy.
- A descriptor's `args` is `Option<seq<V>>`. `None` means absent or not an array.
  `OtherType` is a descriptor whose `type` is neither `'state'` nor `'custom'`; it goes
  to the `default` branch, which is the same code as `'custom'`.
- A dispatcher entry is data: `Setter(key)` or `Invoker(key, factory)`. `Entry.Set` and
  `Entry.Invoke` give the descriptor that calling the entry emits.
- React's `useReducer` is modelled as `Run`, an in-order fold of the reducer over
  `processed`, starting from `mounted`. `mounted` is the state the container was
  created with, the `initialState` of the first call, because `useReducer` reads its
  initial state only once. `processed` holds the descriptors the container applied before this call
  of the hook; it is empty on the first call. If the reducer throws while processing,
  the call of the hook raises that error. This is how a reducer error reaches the
  caller's error boundary.

In three places the code does something a reader might not expect, and the model
follows the code:

- The hook's doc comment (src/useAutoReducer.ts:53) says an action returns a whole
  state. The reducer merges whatever the action returns over the previous state, so a
  partial update keeps every key it does not mention (`CustomActionMerges`).
- The reducer's guard only checks that the descriptor's key is a registered action
  name. It then calls the factory carried by the descriptor (`action.value`); it does
  not look up `actions[key]`.
- A custom action's partial update may contain keys the state does not have. They are
  added. The state's key set is preserved only when every descriptor was emitted by a
  setter (`SetterRunKeepsKeys`).

## Model

| member | source | states |
|---|---|---|
| `AutoReducer.FirstCollision` | src/useAutoReducer.ts:87-91 | The result is absent iff no action name is a state key. Otherwise it is the first name, in enumeration order, that is a state key, and no earlier name is one. |
| `AutoReducer.CollisionIffOverlap` | src/useAutoReducer.ts:87-91 | The check finds a collision iff the action names and the state keys overlap. The key it names is in both. Absent actions never collide. |
| `AutoReducer.CheckKeys` | src/useAutoReducer.ts:87-91 | The `forEach` loop stops at the first colliding name and returns it, or returns nothing if no name collides. |
| `AutoReducer.StateActionSets` | src/useAutoReducer.ts:95-99 | A `'state'` descriptor never fails. The new state has the old keys plus `key`, `key` holds `value`, and every other key keeps its old value. |
| `AutoReducer.CustomActionMerges` | src/useAutoReducer.ts:100-115 | A registered custom or other-typed descriptor yields `last + partial`, where `partial` comes from the descriptor's own factory. Keys of `partial` take its values and all other previous keys are kept. |
| `AutoReducer.ArgumentsForwarded` | src/useAutoReducer.ts:105-115 | The two branches on `args` agree: an empty argument list and absent arguments give the same result, both invoking the factory with no arguments. |
| `AutoReducer.UnregisteredActionFails` | src/useAutoReducer.ts:100-118 | A non-`'state'` descriptor fails iff its key is not a registered action name, which includes the case where actions are absent. The error is the "not initialized" one. |
| `AutoReducer.Run` | src/useAutoReducer.ts:123 | The only error the reducer itself raises, and so the only one a run can end with, is the "not initialized" error. |
| `AutoReducer.RunAppend` | src/useAutoReducer.ts:123 | Descriptors are processed in order. One more descriptor applies the reducer once more, to the latest state, unless an earlier one already failed. |
| `AutoReducer.StateSetsKeepKeys` | src/useAutoReducer.ts:95-99 | A run of `'state'` descriptors on keys the state already has never fails and keeps the key set. |
| `AutoReducer.BuildStateDispatcher` | src/useAutoReducer.ts:125-142 | The state dispatcher has exactly the initial state's keys, and each key holds its own setter. |
| `AutoReducer.BuildCustomDispatcher` | src/useAutoReducer.ts:144-164 | No custom dispatcher exists iff actions are absent. Otherwise it has exactly the action names, and each holds a callable carrying that action's factory. |
| `AutoReducer.MergeKeepsEveryEntry` | src/useAutoReducer.ts:166 | The merged dispatcher's keys are the union of both. With disjoint keys, no entry of either side is overridden. |
| `AutoReducer.SetterEmits` | src/useAutoReducer.ts:128-134 | The setter for a state key `k` called with `v` emits a `'state'` descriptor with key `k` and value `v`. |
| `AutoReducer.InvokerEmits` | src/useAutoReducer.ts:150-157 | The callable for action `k` called with `args` emits a `'custom'` descriptor with key `k`, factory `actions[k]` and exactly `args`. |
| `AutoReducer.EmittedNeverFails` | src/useAutoReducer.ts:100-118 | The reducer's membership guard passes for every descriptor the dispatcher emits. |
| `AutoReducer.SetterTargetsStateKey` | src/useAutoReducer.ts:125-136 | A descriptor emitted by a setter is a `'state'` descriptor on a key of the initial state. |
| `AutoReducer.EmittedRunSucceeds` | src/useAutoReducer.ts:93-121 | A run made only of dispatcher-emitted descriptors never fails. |
| `AutoReducer.SetterRunKeepsKeys` | src/useAutoReducer.ts:125-136 | A run made only of setter-emitted descriptors succeeds and keeps the initial state's key set. |
| `AutoReducer.UseAutoReducer` | src/useAutoReducer.ts:82-167 | A collision throws the duplicate-key error naming the first colliding name, before anything else. This error occurs iff the key sets overlap. Otherwise the hook fails iff the container's run, from the state it was created with, fails. On success it returns the container's state and a dispatcher whose keys are the state keys plus the action names, each holding its setter or callable. |
| `Scenarios.SimpleStateUpdates` | src/__tests__/useAutoReducer.tsx:28-52 | With `{a: 1, b: 2}` and no actions, clicking `a(100)` then `b(200)` shows `{a: 100, b: 200}`. |
| `Scenarios.CustomActionWithoutArguments` | src/__tests__/useAutoReducer.tsx:54-83 | Clicking `updateBoth()` shows `{a: 1000, b: 2000}`. |
| `Scenarios.SetBothFromArgumentPicks` | src/__tests__/useAutoReducer.tsx:91-93 | The destructuring action `({a, b}) => ({a, b})` called with such an object returns exactly that object. |
| `Scenarios.ClickWithArgument` | src/__tests__/useAutoReducer.tsx:100 | The reducer turns the click `updateBoth({a: 1000, b: 2000})` on `{a: 1, b: 2}` into `{a: 1000, b: 2000}`. |
| `Scenarios.CustomActionWithArguments` | src/__tests__/useAutoReducer.tsx:85-111 | Clicking `updateBoth({a: 1000, b: 2000})` shows `{a: 1000, b: 2000}`. |
| `Scenarios.DuplicateKeyRejected` | src/__tests__/useAutoReducer.tsx:113-138 | An action named `a` beside the state key `a` throws `Duplicate key in state and actions: a`. |

## Left out

- React's `useReducer` (src/useAutoReducer.ts:123): rendering, batching, asynchronous
  apply and the hook lifecycle are not modelled. The container is only an in-order fold,
  and the descriptors it has processed are a parameter of `UseAutoReducer`.
- AutoReducer.Run: user action factories are modelled as total, pure functions, so an
  exception thrown by a factory (for instance destructuring a missing argument) or a
  side effect of one is not modelled. In the source such an exception leaves the reducer
  the same way the "not initialized" error does.
- AutoReducer.UseAutoReducer: every descriptor in `processed` is reduced with this
  call's actions. React may have applied some of them earlier with the reducer of an
  earlier render, whose captured actions could differ if the caller changed them.
- Closure identity: every call of the hook builds new callables. The model rebuilds a
  dispatcher of the same contents on every call and compares entries by contents.
- Calling a setter with zero or several arguments, which JavaScript allows and the
  declared types forbid. A setter takes exactly one value.
- The runtime type machinery (`Parameters<ReturnType<...>>`, `any` tuples, type
  assertions) is replaced by an explicit `seq<V>` argument list.
- Prototype lookup: `hasOwnProperty` and `actions[key]` are plain key membership, so
  inherited properties are not modelled.
- Key order of the state after a spread is not modelled. The state is an unordered map.
- The warning that an event handler passed directly may be called with a DOM event as
  its argument (src/useAutoReducer.ts:73-75). It concerns callers, not this logic.
- Calling a dispatcher entry after its owner is torn down, which is undefined behaviour
  of the external container.
- The test harness (enzyme mounting, the error boundary, DOM text checks). It is used
  only for the concrete scenarios.
