/** What `spawnSeries` and `spawnParallel` share: their argument switch, the
    observable actions of an orchestration, and how one list item is launched. */
module Orchestration {
  import opened Results
  import opened Js
  import opened Options
  import opened Arguments

  /** The options, per-step `callback` and final `done` after the switch. */
  datatype Setup = Setup(options: JsValue, callback: JsValue, done: JsValue)

  /** The `switch (arguments.length)` of `spawnSeries` (and, identically, of
      `spawnParallel`); `rest` are the arguments after `commands`. */
  function OrchestrationArgs(rest: seq<JsValue>): (r: Setup)
    // a lone trailing function is the final callback, not a step callback
    ensures (|rest| == 1 || |rest| == 2) && rest[|rest| - 1].Fn? ==>
      r.done == rest[|rest| - 1] && r.callback == Fn(EmptyFn)
    // options are passed on untouched unless the function in their place is the final callback
    ensures |rest| >= 1 && !(|rest| == 1 && rest[0].Fn?) ==> r.options == rest[0]
    // done is a function in every form but (commands, options, non-function)
    ensures r.done.Fn? || |rest| >= 2
    ensures |rest| >= 3 ==> r.callback == rest[1] && r.done == rest[2]
    ensures |rest| == 0 ==> r == Setup(Obj(map[]), Fn(EmptyFn), Fn(EmptyFn))
    ensures |rest| == 1 && rest[0].Fn? ==> r.options == Obj(map[])
    ensures |rest| == 1 && !rest[0].Fn? ==> r.callback == Fn(EmptyFn) && r.done == Fn(EmptyFn)
    ensures |rest| == 2 && !rest[1].Fn? ==> r.callback == rest[1] && r.done == Undefined
  {
    var options, callback, done := Arg(rest, 0), Arg(rest, 1), Arg(rest, 2);
    if |rest| == 0 then Setup(Obj(map[]), Fn(EmptyFn), Fn(EmptyFn))
    else if |rest| == 1 then
      if IsFunction(options) then Setup(Obj(map[]), Fn(EmptyFn), options)
      else Setup(options, Fn(EmptyFn), Fn(EmptyFn))
    else if |rest| == 2 then
      if IsFunction(callback) then Setup(options, Fn(EmptyFn), callback)
      else Setup(options, callback, Undefined)
    else Setup(options, callback, done)
  }

  /** The five documented usages. */
  lemma {:induction false} DocumentedSetups(o: map<string, JsValue>, cb: FnRef, d: FnRef)
    ensures OrchestrationArgs([]) == Setup(Obj(map[]), Fn(EmptyFn), Fn(EmptyFn))
    ensures OrchestrationArgs([Obj(o)]) == Setup(Obj(o), Fn(EmptyFn), Fn(EmptyFn))
    ensures OrchestrationArgs([Fn(d)]) == Setup(Obj(map[]), Fn(EmptyFn), Fn(d))
    ensures OrchestrationArgs([Obj(o), Fn(d)]) == Setup(Obj(o), Fn(EmptyFn), Fn(d))
    ensures OrchestrationArgs([Obj(o), Fn(cb), Fn(d)]) == Setup(Obj(o), Fn(cb), Fn(d))
  {
  }

  /** What an orchestration does that a caller can observe, in order. */
  datatype Action =
      /** `_spawn(cmd, args, options, onClose)` launched step `index`. */
    | Launched(index: nat, cmd: JsValue, args: JsValue, options: map<string, JsValue>, onClose: FnRef)
      /** A step function was called with the continuation. */
    | Invoked(index: nat)
      /** `callback(cmd, child, options, index)` was called. */
    | Observed(index: nat)
      /** `done(result)` was called. */
    | Finished(result: JsValue)
      /** `_spawnArgs` threw while resolving an array item. */
    | Threw(error: ArgError)

  predicate IsTerminal(a: Action) {
    a.Finished? || a.Threw?
  }

  predicate IsStart(a: Action) {
    a.Launched? || a.Invoked?
  }

  function StartedIn(a: Action): seq<nat> {
    if IsStart(a) then [a.index] else []
  }

  function ObservedIn(a: Action): seq<nat> {
    if a.Observed? then [a.index] else []
  }

  function TerminalIn(a: Action): seq<Action> {
    if IsTerminal(a) then [a] else []
  }

  /** Indices of the steps started (launched or invoked), in order. */
  function Started(trace: seq<Action>): seq<nat>
    decreases |trace|
  {
    if trace == [] then [] else StartedIn(trace[0]) + Started(trace[1..])
  }

  /** Indices the step callback was called with, in order. */
  function ObservedSteps(trace: seq<Action>): seq<nat>
    decreases |trace|
  {
    if trace == [] then [] else ObservedIn(trace[0]) + ObservedSteps(trace[1..])
  }

  /** The calls of `done` and the throws, in order. */
  function Terminals(trace: seq<Action>): seq<Action>
    decreases |trace|
  {
    if trace == [] then [] else TerminalIn(trace[0]) + Terminals(trace[1..])
  }

  lemma {:induction false} SingleViews(a: Action)
    ensures Started([a]) == StartedIn(a)
    ensures ObservedSteps([a]) == ObservedIn(a)
    ensures Terminals([a]) == TerminalIn(a)
  {
    assert [a][1..] == [];
  }

  /** The views of a two-action trace. */
  lemma {:induction false} PairViews(a: Action, b: Action)
    ensures Started([a, b]) == StartedIn(a) + StartedIn(b)
    ensures ObservedSteps([a, b]) == ObservedIn(a) + ObservedIn(b)
    ensures Terminals([a, b]) == TerminalIn(a) + TerminalIn(b)
  {
    var tr := [a, b];
    assert tr[1..] == [b];
    SingleViews(b);
  }

  lemma {:induction false} ViewsAppend(a: seq<Action>, b: seq<Action>)
    ensures Started(a + b) == Started(a) + Started(b)
    ensures ObservedSteps(a + b) == ObservedSteps(a) + ObservedSteps(b)
    ensures Terminals(a + b) == Terminals(a) + Terminals(b)
  {
    StartedAppend(a, b);
    ObservedAppend(a, b);
    TerminalsAppend(a, b);
  }

  lemma {:induction false} StartedAppend(a: seq<Action>, b: seq<Action>)
    ensures Started(a + b) == Started(a) + Started(b)
    decreases |a|
  {
    if a == [] {
      assert a + b == b;
    } else {
      assert (a + b)[0] == a[0];
      assert (a + b)[1..] == a[1..] + b;
      StartedAppend(a[1..], b);
    }
  }

  lemma {:induction false} ObservedAppend(a: seq<Action>, b: seq<Action>)
    ensures ObservedSteps(a + b) == ObservedSteps(a) + ObservedSteps(b)
    decreases |a|
  {
    if a == [] {
      assert a + b == b;
    } else {
      assert (a + b)[0] == a[0];
      assert (a + b)[1..] == a[1..] + b;
      ObservedAppend(a[1..], b);
    }
  }

  lemma {:induction false} TerminalsAppend(a: seq<Action>, b: seq<Action>)
    ensures Terminals(a + b) == Terminals(a) + Terminals(b)
    decreases |a|
  {
    if a == [] {
      assert a + b == b;
    } else {
      assert (a + b)[0] == a[0];
      assert (a + b)[1..] == a[1..] + b;
      TerminalsAppend(a[1..], b);
    }
  }

  /** `from, from + 1, ..., to - 1` */
  function Range(from: nat, to: nat): (r: seq<nat>)
    decreases to - from
    ensures |r| == (if from >= to then 0 else to - from)
    ensures forall k :: 0 <= k < |r| ==> r[k] == from + k
  {
    if from >= to then [] else [from] + Range(from + 1, to)
  }

  /** An array item whose `_spawnArgs` throws. */
  predicate Throws(cmd: JsValue) {
    cmd.Arr? && ClassifyArgs(cmd.elems).Err?
  }

  /** How an item that is not a step function is launched as step `i`: an
      array through `_spawnArgs(item, options)`, anything else as a command
      line with `getOptions(options)` and no argument vector. */
  function LaunchAction(cmd: JsValue, i: nat, options: JsValue, defaults: map<string, JsValue>): (r: Result<Action, ArgError>)
    ensures r.Err? <==> Throws(cmd)
    ensures r.Ok? ==> r.value.Launched? && r.value.index == i
    // an array item launches the quadruple `_spawnArgs(item, options)` returns
    ensures cmd.Arr? && r.Ok? ==>
      ResolveCall(cmd.elems, options, defaults) == Ok(Quad(r.value.cmd, r.value.args, r.value.options, r.value.onClose))
    ensures cmd.Arr? && r.Err? ==> ResolveCall(cmd.elems, options, defaults) == Err(r.error)
    // any other item is a command line with the orchestration options and no callback
    ensures !cmd.Arr? ==> r == Ok(Launched(i, cmd, Null, OptionsFor(options, Undefined, defaults), EmptyFn))
  {
    match cmd
    case Arr(argv) =>
      (match ResolveCall(argv, options, defaults)
       case Err(e) => Err(e)
       case Ok(q) => Ok(Launched(i, q.cmd, q.args, q.options, q.done)))
    case _ => Ok(Launched(i, cmd, Null, OptionsFor(options, Undefined, defaults), EmptyFn))
  }

  /** The options an array item launches with: for every name but `prompt`,
      the item's own options win over the orchestration options, which win
      over the library defaults. */
  lemma {:induction false} ItemOptionsWin(cmd: JsValue, i: nat, options: JsValue, defaults: map<string, JsValue>, name: string)
    requires cmd.Arr? && !Throws(cmd) && name != "prompt"
    ensures var own := ClassifyArgs(cmd.elems).value.options;
      var launched := LaunchAction(cmd, i, options, defaults).value.options;
      && (name in launched <==> DefinedIn(own, name) || DefinedIn(options, name) || DefinedIn(Obj(defaults), name))
      && Get(launched, name) ==
        if DefinedIn(own, name) then Props(own)[name]
        else if DefinedIn(options, name) then Props(options)[name]
        else if DefinedIn(Obj(defaults), name) then defaults[name]
        else Undefined
  {
    OptionsPrecedence(ClassifyArgs(cmd.elems).value.options, options, defaults, name);
  }

  /** The options any other item launches with: for every name but
      `prompt`, the orchestration options win over the library defaults. */
  lemma {:induction false} CommandOptions(cmd: JsValue, i: nat, options: JsValue, defaults: map<string, JsValue>, name: string)
    requires !cmd.Arr? && name != "prompt"
    ensures var launched := LaunchAction(cmd, i, options, defaults).value.options;
      && (name in launched <==> DefinedIn(options, name) || DefinedIn(Obj(defaults), name))
      && Get(launched, name) ==
        if DefinedIn(options, name) then Props(options)[name]
        else if DefinedIn(Obj(defaults), name) then defaults[name]
        else Undefined
  {
    assert Props(Undefined) == map[];
    OptionsPrecedence(options, Undefined, defaults, name);
  }

  method Launch(cmd: JsValue, i: nat, options: JsValue, defaults: map<string, JsValue>) returns (r: Result<Action, ArgError>)
    ensures r == LaunchAction(cmd, i, options, defaults)
  {
    if cmd.Arr? {
      var q := SpawnArgs(cmd.elems, options, defaults);
      if q.Err? {
        return Err(q.error);
      }
      r := Ok(Launched(i, q.value.cmd, q.value.args, q.value.options, q.value.done));
    } else {
      var opts := GetOptions(options, Undefined, defaults);
      r := Ok(Launched(i, cmd, Null, opts, EmptyFn));
    }
  }

  /** How item `i` of a command list starts: a step function is invoked
      with the continuation, any other item is launched. */
  function StartItem(cmd: JsValue, i: nat, options: JsValue, defaults: map<string, JsValue>): (r: Result<Action, ArgError>)
    ensures r.Err? <==> Throws(cmd)
    ensures r.Err? ==> r.error == ClassifyArgs(cmd.elems).error
    ensures r.Ok? ==> IsStart(r.value) && r.value.index == i
    ensures r.Ok? ==> (r.value.Invoked? <==> cmd.Fn?)
    ensures r.Ok? && r.value.Launched? ==> r == LaunchAction(cmd, i, options, defaults)
  {
    if IsFunction(cmd) then Ok(Invoked(i)) else LaunchAction(cmd, i, options, defaults)
  }

  method Start(cmd: JsValue, i: nat, options: JsValue, defaults: map<string, JsValue>) returns (r: Result<Action, ArgError>)
    ensures r == StartItem(cmd, i, options, defaults)
  {
    if IsFunction(cmd) {
      return Ok(Invoked(i));
    }
    r := Launch(cmd, i, options, defaults);
  }

  /** The start of each item of a command list, by index. */
  type StartTable = seq<Result<Action, ArgError>>

  function Starts(cmds: seq<JsValue>, options: JsValue, defaults: map<string, JsValue>): (r: StartTable)
    ensures |r| == |cmds|
    ensures forall i :: 0 <= i < |cmds| ==> r[i] == StartItem(cmds[i], i, options, defaults)
  {
    seq(|cmds|, i requires 0 <= i < |cmds| => StartItem(cmds[i], i, options, defaults))
  }

  /** Every successful start starts the step at its own index. */
  predicate WellIndexed(starts: StartTable) {
    forall i :: 0 <= i < |starts| && starts[i].Ok? ==> IsStart(starts[i].value) && starts[i].value.index == i
  }

  lemma {:induction false} StartsWellIndexed(cmds: seq<JsValue>, options: JsValue, defaults: map<string, JsValue>)
    ensures WellIndexed(Starts(cmds, options, defaults))
  {
    var starts := Starts(cmds, options, defaults);
    forall i | 0 <= i < |starts| && starts[i].Ok?
      ensures IsStart(starts[i].value) && starts[i].value.index == i
    {
      assert starts[i] == StartItem(cmds[i], i, options, defaults);
    }
  }

  /** Each start in `tr` is the start its item has in the table. */
  predicate StartsFromTable(starts: StartTable, tr: seq<Action>) {
    forall j :: 0 <= j < |tr| && IsStart(tr[j]) ==> tr[j].index < |starts| && starts[tr[j].index] == Ok(tr[j])
  }

  /** The first index at or after `i` whose start throws, or the length. */
  function FirstThrow(starts: StartTable, i: nat): (r: nat)
    requires i <= |starts|
    ensures i <= r <= |starts|
    ensures forall j :: i <= j < r ==> starts[j].Ok?
    ensures r < |starts| ==> starts[r].Err?
    decreases |starts| - i
  {
    if i == |starts| then |starts| else if starts[i].Err? then i else FirstThrow(starts, i + 1)
  }
}
