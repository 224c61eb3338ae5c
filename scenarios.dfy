/**
  The hook's documented usage scenarios, each a sequence of hook calls and
  dispatcher clicks whose outcome follows from the contracts of `AutoReducer`.
  A click's descriptor is processed by the state container before the next
  call of the hook, which then shows the new state.
*/
module Scenarios {
  import opened Wrappers
  import opened AutoReducer

  /** The values the scenarios use: numbers and plain objects. */
  datatype Json = Num(n: int) | Object(fields: map<string, Json>)

  /** `{ a: 1, b: 2 }`. */
  function InitialAB(): (s: Obj<Json>)
    ensures s.Wf()
  {
    Obj(["a", "b"], map["a" := Num(1), "b" := Num(2)])
  }

  /** `() => () => ({ a: 1000, b: 2000 })`. */
  function SetBothConstant(): Factory<Json> {
    (state: State<Json>, args: seq<Json>) => map["a" := Num(1000), "b" := Num(2000)]
  }

  /**
    `() => ({ a, b }) => ({ a, b })`: the `a` and `b` fields of the one object
    argument. The `map[]` branch stands for the inputs where JavaScript either
    yields `undefined` fields or throws (destructuring a missing argument, as
    a call `updateBoth()` would); factories here cannot throw.
  */
  function SetBothFromArgument(): Factory<Json> {
    (state: State<Json>, args: seq<Json>) =>
      if |args| > 0 && args[0].Object? && "a" in args[0].fields && "b" in args[0].fields
      then map["a" := args[0].fields["a"], "b" := args[0].fields["b"]]
      else map[]
  }

  /** Given the object `{ a, b }`, the factory's update is exactly `{ a, b }`. */
  lemma SetBothFromArgumentPicks(state: State<Json>, argument: Json)
    requires argument.Object? && argument.fields.Keys == {"a", "b"}
    ensures SetBothFromArgument()(state, [argument]) == argument.fields
  {
  }

  /** Clicking `updateBoth({ a: 1000, b: 2000 })` replaces both keys of `{ a: 1, b: 2 }`. */
  lemma ClickWithArgument(argument: Json)
    requires argument == Object(map["a" := Num(1000), "b" := Num(2000)])
    ensures Reduce(Some(UpdateBoth(SetBothFromArgument())), InitialAB().at,
                   CustomInvoke("updateBoth", SetBothFromArgument(), Some([argument])))
            == Ok(map["a" := Num(1000), "b" := Num(2000)])
  {
    SetBothFromArgumentPicks(InitialAB().at, argument);
    assert InitialAB().at + argument.fields == argument.fields;
  }

  /** The single action `updateBoth`. */
  function UpdateBoth(f: Factory<Json>): (actions: Obj<Factory<Json>>)
    ensures actions.Wf()
  {
    var table: map<string, Factory<Json>> := map["updateBoth" := f];
    Obj(["updateBoth"], table)
  }

  /** Without custom actions, clicking `a(100)` then `b(200)` shows `{ a: 100, b: 200 }`. */
  method SimpleStateUpdates() returns (shown: State<Json>)
    ensures shown == map["a" := Num(100), "b" := Num(200)]
  {
    var first := UseAutoReducer(InitialAB(), None, InitialAB().at, []);
    assert first.Ok? && first.value.state == InitialAB().at;
    var d := first.value.dispatcher;
    SetterEmits(d, InitialAB().at, map[], "a", Num(100));
    SetterEmits(d, InitialAB().at, map[], "b", Num(200));
    var clicks := [d["a"].Set(Num(100)), d["b"].Set(Num(200))];
    var next := UseAutoReducer(InitialAB(), None, InitialAB().at, clicks);
    var afterA := InitialAB().at["a" := Num(100)];
    var afterB := afterA["b" := Num(200)];
    assert Run(None, afterA, clicks[1..]) == Ok(afterB) by {
      assert clicks[1..][1..] == [];
    }
    assert afterB == map["a" := Num(100), "b" := Num(200)];
    shown := next.value.state;
  }

  /** With `updateBoth` taking no arguments, clicking `updateBoth()` shows `{ a: 1000, b: 2000 }`. */
  method CustomActionWithoutArguments() returns (shown: State<Json>)
    ensures shown == map["a" := Num(1000), "b" := Num(2000)]
  {
    var actions := Some(UpdateBoth(SetBothConstant()));
    var first := UseAutoReducer(InitialAB(), actions, InitialAB().at, []);
    assert first.Ok?;
    var d := first.value.dispatcher;
    InvokerEmits(d, InitialAB().at, Table(actions), "updateBoth", []);
    var clicks := [d["updateBoth"].Invoke([])];
    var next := UseAutoReducer(InitialAB(), actions, InitialAB().at, clicks);
    var partial := map["a" := Num(1000), "b" := Num(2000)];
    assert Reduce(actions, InitialAB().at, clicks[0]) == Ok(InitialAB().at + partial);
    assert clicks[1..] == [];
    assert InitialAB().at + partial == partial;
    shown := next.value.state;
  }

  /** With `updateBoth` taking an object, clicking `updateBoth({ a: 1000, b: 2000 })` shows `{ a: 1000, b: 2000 }`. */
  method CustomActionWithArguments() returns (shown: State<Json>)
    ensures shown == map["a" := Num(1000), "b" := Num(2000)]
  {
    var actions := Some(UpdateBoth(SetBothFromArgument()));
    var first := UseAutoReducer(InitialAB(), actions, InitialAB().at, []);
    assert first.Ok?;
    var d := first.value.dispatcher;
    var argument := Object(map["a" := Num(1000), "b" := Num(2000)]);
    InvokerEmits(d, InitialAB().at, Table(actions), "updateBoth", [argument]);
    var clicks := [d["updateBoth"].Invoke([argument])];
    var next := UseAutoReducer(InitialAB(), actions, InitialAB().at, clicks);
    ClickWithArgument(argument);
    assert clicks[1..] == [];
    shown := next.value.state;
  }

  /** An action named `a` beside the state key `a` makes the hook throw, naming the key. */
  method DuplicateKeyRejected() returns (message: string)
    ensures message == "Duplicate key in state and actions: a"
  {
    var table: map<string, Factory<Json>> := map["a" := SetBothConstant()];
    var actions := Some(Obj(["a"], table));
    assert actions.value.Wf();
    var r := UseAutoReducer(InitialAB(), actions, InitialAB().at, []);
    assert FirstCollision(Names(actions), InitialAB().at) == Some("a");
    message := Message(r.error);
  }
}
