/** `spawnSeries`: the steps of a command list are run one after the other;
    a step starts when the previous one has completed with a falsy value,
    and `done` receives the first truthy completion value or the last one.

    A step completes with the `exit` code of its child, or with whatever a
    step function passes to its continuation; `exits[k]` is the value step
    `k` completed with, and a list shorter than the steps means the step
    after its end has not completed yet. The traces are stated over the
    start table of the list (`Starts`), what each item does when reached. */
module Series {
  import opened Results
  import opened Js
  import opened Arguments
  import opened Orchestration

  /** What one call of `iterate(err)` does when `next` is the index its
      `++i` produces: `done(err)` on a truthy `err` or past the end,
      otherwise step `next` is started (or throws) and the callback
      observes it. */
  function IterateActions(starts: StartTable, next: nat, err: JsValue): (r: seq<Action>)
    ensures |r| == 1 || |r| == 2
    ensures r[|r| - 1].Observed? ==> next < |starts| && r[|r| - 1] == Observed(next)
  {
    if Truthy(err) || next >= |starts| then [Finished(err)]
    else match starts[next]
      case Err(e) => [Threw(e)]
      case Ok(a) => [a, Observed(next)]
  }

  /** A trace that is waiting for its running step to complete. */
  predicate Waiting(trace: seq<Action>) {
    |trace| > 0 && trace[|trace| - 1].Observed?
  }

  /** Everything from the call `iterate(err)` that enters step `next` on,
      when the steps complete with `exits`. */
  function SeriesFrom(starts: StartTable, exits: seq<JsValue>, next: nat, err: JsValue): seq<Action>
    decreases |starts| - next
  {
    var acts := IterateActions(starts, next, err);
    if Waiting(acts) && next < |exits| then acts + SeriesFrom(starts, exits, next + 1, exits[next])
    else acts
  }

  /** The whole run: `spawnSeries` starts with `iterate(0)`. */
  function SeriesTrace(cmds: seq<JsValue>, options: JsValue, defaults: map<string, JsValue>, exits: seq<JsValue>): seq<Action> {
    SeriesFrom(Starts(cmds, options, defaults), exits, 0, Num(0))
  }

  /** The first index at or after `i` that has not completed, or that
      completed with a truthy value. */
  function FirstStop(exits: seq<JsValue>, i: nat): (r: nat)
    ensures i <= r && (i <= |exits| ==> r <= |exits|)
    ensures forall m :: i <= m < r ==> m < |exits| && !Truthy(exits[m])
    ensures r < |exits| ==> Truthy(exits[r])
    decreases |exits| - i
  {
    if i >= |exits| || Truthy(exits[i]) then i else FirstStop(exits, i + 1)
  }

  function Min(a: nat, b: nat): nat {
    if a <= b then a else b
  }

  /** How many steps a run entered at step `next` with a falsy value has
      started: the consecutive indices up to the first item that throws,
      the first step that failed or is still running, or the end. */
  function StepsRun(starts: StartTable, exits: seq<JsValue>, next: nat): nat
    requires next <= |starts|
  {
    Min(FirstThrow(starts, next), Min(FirstStop(exits, next) + 1, |starts|))
  }

  /** How such a run ends: a throw from the first item that throws when it
      is reached; otherwise `done` with the first truthy completion value,
      nothing while a step is still running, or `done` with the last
      completion value (`err` itself when no step is left). */
  function SeriesOutcome(starts: StartTable, exits: seq<JsValue>, next: nat, err: JsValue): seq<Action>
    requires next <= |starts|
  {
    var n, h, t := |starts|, FirstThrow(starts, next), FirstStop(exits, next);
    if h < n && h <= t then [Threw(starts[h].error)]
    else if t < n then (if t < |exits| then [Finished(exits[t])] else [])
    else [Finished(if next < n then exits[n - 1] else err)]
  }

  /** Entering a step that neither throws nor fails moves both closed forms
      one step on. */
  lemma {:induction false} ClosedFormStep(starts: StartTable, exits: seq<JsValue>, next: nat, err: JsValue)
    requires next < |starts| && next < |exits| && starts[next].Ok? && !Truthy(exits[next])
    ensures StepsRun(starts, exits, next) == StepsRun(starts, exits, next + 1)
    ensures next < StepsRun(starts, exits, next)
    ensures SeriesOutcome(starts, exits, next, err) == SeriesOutcome(starts, exits, next + 1, exits[next])
  {
    assert FirstThrow(starts, next) == FirstThrow(starts, next + 1);
    assert FirstStop(exits, next) == FirstStop(exits, next + 1);
  }

  /** A call of `iterate` that starts step `next`: one start, one
      observation, no terminal. */
  lemma {:induction false} StartingIterate(starts: StartTable, next: nat, err: JsValue)
    requires WellIndexed(starts) && next < |starts| && starts[next].Ok? && !Truthy(err)
    ensures var acts := IterateActions(starts, next, err);
      acts == [starts[next].value, Observed(next)]
      && Started(acts) == [next] && ObservedSteps(acts) == [next] && Terminals(acts) == []
  {
    PairViews(starts[next].value, Observed(next));
  }

  /** A call of `iterate` that ends the run. */
  lemma {:induction false} EndingIterate(starts: StartTable, next: nat, err: JsValue)
    requires next <= |starts| && (next == |starts| || Truthy(err) || starts[next].Err?)
    ensures var acts := IterateActions(starts, next, err);
      && Started(acts) == [] && ObservedSteps(acts) == []
      && Terminals(acts) == acts == [if Truthy(err) || next == |starts| then Finished(err) else Threw(starts[next].error)]
  {
    var acts := IterateActions(starts, next, err);
    SingleViews(acts[0]);
  }

  /** A run that ends at the call entering step `next`. */
  lemma {:induction false} SeriesEndsHere(starts: StartTable, exits: seq<JsValue>, next: nat, err: JsValue)
    requires next <= |starts| && (next == |starts| || Truthy(err) || starts[next].Err?)
    ensures var tr := SeriesFrom(starts, exits, next, err);
      && Started(tr) == [] && ObservedSteps(tr) == []
      && Terminals(tr) == [if Truthy(err) || next == |starts| then Finished(err) else Threw(starts[next].error)]
  {
    EndingIterate(starts, next, err);
    assert SeriesFrom(starts, exits, next, err) == IterateActions(starts, next, err);
  }

  /** A run whose step `next` is still running. */
  lemma {:induction false} SeriesWaitsHere(starts: StartTable, exits: seq<JsValue>, next: nat, err: JsValue)
    requires WellIndexed(starts) && next < |starts| && starts[next].Ok? && !Truthy(err) && next >= |exits|
    ensures var tr := SeriesFrom(starts, exits, next, err);
      Started(tr) == [next] && ObservedSteps(tr) == [next] && Terminals(tr) == []
  {
    StartingIterate(starts, next, err);
    assert SeriesFrom(starts, exits, next, err) == IterateActions(starts, next, err);
  }

  /** A run whose step `next` has completed: one start and one observation,
      then the rest of the run. */
  lemma {:induction false} SeriesGoesOn(starts: StartTable, exits: seq<JsValue>, next: nat, err: JsValue)
    requires WellIndexed(starts) && next < |starts| && starts[next].Ok? && !Truthy(err) && next < |exits|
    ensures var tr, rest := SeriesFrom(starts, exits, next, err), SeriesFrom(starts, exits, next + 1, exits[next]);
      && Started(tr) == [next] + Started(rest)
      && ObservedSteps(tr) == [next] + ObservedSteps(rest)
      && Terminals(tr) == Terminals(rest)
  {
    var acts := IterateActions(starts, next, err);
    var rest := SeriesFrom(starts, exits, next + 1, exits[next]);
    StartingIterate(starts, next, err);
    assert SeriesFrom(starts, exits, next, err) == acts + rest;
    ViewsAppend(acts, rest);
  }

  /** The callback observes exactly the steps started, in the same order. */
  lemma {:induction false} SeriesObservesStarted(starts: StartTable, exits: seq<JsValue>, next: nat, err: JsValue)
    requires WellIndexed(starts) && next <= |starts|
    ensures ObservedSteps(SeriesFrom(starts, exits, next, err)) == Started(SeriesFrom(starts, exits, next, err))
    decreases |starts| - next
  {
    if next == |starts| || Truthy(err) || starts[next].Err? {
      SeriesEndsHere(starts, exits, next, err);
    } else if next >= |exits| {
      SeriesWaitsHere(starts, exits, next, err);
    } else {
      SeriesGoesOn(starts, exits, next, err);
      SeriesObservesStarted(starts, exits, next + 1, exits[next]);
    }
  }

  /** The steps started, and so the steps observed by the callback, are the
      consecutive indices up to the closed form's bound. */
  lemma {:induction false} SeriesStarted(starts: StartTable, exits: seq<JsValue>, next: nat, err: JsValue)
    requires WellIndexed(starts) && next <= |starts| && !Truthy(err)
    ensures Started(SeriesFrom(starts, exits, next, err)) == Range(next, StepsRun(starts, exits, next))
    ensures ObservedSteps(SeriesFrom(starts, exits, next, err)) == Range(next, StepsRun(starts, exits, next))
    decreases |starts| - next
  {
    SeriesObservesStarted(starts, exits, next, err);
    if next == |starts| || starts[next].Err? {
      SeriesEndsHere(starts, exits, next, err);
      assert StepsRun(starts, exits, next) == next;
    } else {
      var k := StepsRun(starts, exits, next);
      assert FirstThrow(starts, next) > next;
      assert Range(next, k) == [next] + Range(next + 1, k);
      if next >= |exits| {
        SeriesWaitsHere(starts, exits, next, err);
        assert FirstStop(exits, next) == next;
      } else {
        SeriesGoesOn(starts, exits, next, err);
        if Truthy(exits[next]) {
          SeriesEndsHere(starts, exits, next + 1, exits[next]);
          assert FirstStop(exits, next) == next;
        } else {
          ClosedFormStep(starts, exits, next, err);
          SeriesStarted(starts, exits, next + 1, exits[next]);
        }
      }
    }
  }

  /** `done` is called at most once, with the value the closed form names,
      and a throw ends the run without it. */
  lemma {:induction false} SeriesTerminals(starts: StartTable, exits: seq<JsValue>, next: nat, err: JsValue)
    requires WellIndexed(starts) && next <= |starts| && !Truthy(err)
    ensures Terminals(SeriesFrom(starts, exits, next, err)) == SeriesOutcome(starts, exits, next, err)
    decreases |starts| - next
  {
    if next == |starts| || starts[next].Err? {
      SeriesEndsHere(starts, exits, next, err);
      OutcomeHere(starts, exits, next, err);
    } else if next >= |exits| {
      SeriesWaitsHere(starts, exits, next, err);
      OutcomeWaiting(starts, exits, next, err);
    } else {
      SeriesGoesOn(starts, exits, next, err);
      if Truthy(exits[next]) {
        SeriesEndsHere(starts, exits, next + 1, exits[next]);
        OutcomeFailing(starts, exits, next, err);
      } else {
        ClosedFormStep(starts, exits, next, err);
        SeriesTerminals(starts, exits, next + 1, exits[next]);
      }
    }
  }

  lemma {:induction false} OutcomeHere(starts: StartTable, exits: seq<JsValue>, next: nat, err: JsValue)
    requires next <= |starts| && (next == |starts| || starts[next].Err?)
    ensures SeriesOutcome(starts, exits, next, err) ==
      [if next == |starts| then Finished(err) else Threw(starts[next].error)]
  {
    assert FirstThrow(starts, next) == next;
  }

  lemma {:induction false} OutcomeWaiting(starts: StartTable, exits: seq<JsValue>, next: nat, err: JsValue)
    requires next < |starts| && starts[next].Ok? && next >= |exits|
    ensures SeriesOutcome(starts, exits, next, err) == []
  {
    assert FirstThrow(starts, next) > next;
    assert FirstStop(exits, next) == next;
  }

  lemma {:induction false} OutcomeFailing(starts: StartTable, exits: seq<JsValue>, next: nat, err: JsValue)
    requires next < |starts| && starts[next].Ok? && next < |exits| && Truthy(exits[next])
    ensures SeriesOutcome(starts, exits, next, err) == [Finished(exits[next])]
  {
    assert FirstThrow(starts, next) > next;
    assert FirstStop(exits, next) == next;
  }

  predicate NoTerminalBeforeEnd(tr: seq<Action>) {
    forall j :: 0 <= j < |tr| - 1 ==> !IsTerminal(tr[j])
  }

  /** `done` is the last thing a run does: no action follows a call of
      `done` or a throw. */
  lemma {:induction false} SeriesEndsAtTerminal(starts: StartTable, exits: seq<JsValue>, next: nat, err: JsValue)
    requires WellIndexed(starts)
    ensures NoTerminalBeforeEnd(SeriesFrom(starts, exits, next, err))
    decreases |starts| - next
  {
    var acts := IterateActions(starts, next, err);
    if Waiting(acts) && next < |exits| {
      var rest := SeriesFrom(starts, exits, next + 1, exits[next]);
      SeriesEndsAtTerminal(starts, exits, next + 1, exits[next]);
      var tr := acts + rest;
      assert !IsTerminal(acts[0]) && !IsTerminal(acts[1]);
      forall j | 0 <= j < |tr| - 1 ensures !IsTerminal(tr[j]) {
        if j >= |acts| {
          var k := j - |acts|;
          assert tr[j] == rest[k];
        } else {
          assert tr[j] == acts[j];
        }
      }
    }
  }

  lemma {:induction false} SeriesFromStarts(starts: StartTable, exits: seq<JsValue>, next: nat, err: JsValue)
    requires WellIndexed(starts)
    ensures StartsFromTable(starts, SeriesFrom(starts, exits, next, err))
    decreases |starts| - next
  {
    var acts := IterateActions(starts, next, err);
    if Waiting(acts) && next < |exits| {
      var rest := SeriesFrom(starts, exits, next + 1, exits[next]);
      SeriesFromStarts(starts, exits, next + 1, exits[next]);
      var tr := acts + rest;
      forall j | 0 <= j < |tr| && IsStart(tr[j])
        ensures tr[j].index < |starts| && starts[tr[j].index] == Ok(tr[j])
      {
        if j >= |acts| {
          assert tr[j] == rest[j - |acts|];
        } else {
          assert tr[j] == acts[j];
        }
      }
    }
  }

  /** Every step the run starts is item `index` started with the
      orchestration options: an array through `_spawnArgs(item, options)`,
      a command line through `getOptions(options)`, a function invoked. */
  lemma {:induction false} SeriesLaunches(cmds: seq<JsValue>, options: JsValue, defaults: map<string, JsValue>, exits: seq<JsValue>)
    ensures var tr := SeriesTrace(cmds, options, defaults, exits);
      forall j :: 0 <= j < |tr| && IsStart(tr[j]) ==>
        tr[j].index < |cmds| && StartItem(cmds[tr[j].index], tr[j].index, options, defaults) == Ok(tr[j])
  {
    StartsWellIndexed(cmds, options, defaults);
    SeriesFromStarts(Starts(cmds, options, defaults), exits, 0, Num(0));
  }

  /** An empty list calls `done(0)` at once. */
  lemma {:induction false} SeriesEmpty(options: JsValue, defaults: map<string, JsValue>, exits: seq<JsValue>)
    ensures SeriesTrace([], options, defaults, exits) == [Finished(Num(0))]
  {
  }

  /** When no item throws and every step succeeds, every step runs in order
      and `done` gets the last completion value. */
  lemma {:induction false} SeriesAllSucceed(cmds: seq<JsValue>, options: JsValue, defaults: map<string, JsValue>, exits: seq<JsValue>)
    requires 0 < |cmds| <= |exits|
    requires forall i :: 0 <= i < |cmds| ==> !Throws(cmds[i]) && !Truthy(exits[i])
    ensures var tr := SeriesTrace(cmds, options, defaults, exits);
      Started(tr) == Range(0, |cmds|) && Terminals(tr) == [Finished(exits[|cmds| - 1])]
  {
    var starts := Starts(cmds, options, defaults);
    StartsWellIndexed(cmds, options, defaults);
    SeriesStarted(starts, exits, 0, Num(0));
    SeriesTerminals(starts, exits, 0, Num(0));
    assert FirstThrow(starts, 0) == |cmds|;
  }

  /** The first failing step ends the run: no later step starts and `done`
      receives its completion value. */
  lemma {:induction false} SeriesStopsAtFailure(cmds: seq<JsValue>, options: JsValue, defaults: map<string, JsValue>,
                                                exits: seq<JsValue>, k: nat)
    requires k < |cmds| && k < |exits| && Truthy(exits[k])
    requires forall i :: 0 <= i <= k ==> !Throws(cmds[i])
    requires forall i :: 0 <= i < k ==> !Truthy(exits[i])
    ensures var tr := SeriesTrace(cmds, options, defaults, exits);
      Started(tr) == Range(0, k + 1) && Terminals(tr) == [Finished(exits[k])]
  {
    var starts := Starts(cmds, options, defaults);
    StartsWellIndexed(cmds, options, defaults);
    SeriesStarted(starts, exits, 0, Num(0));
    SeriesTerminals(starts, exits, 0, Num(0));
    assert FirstThrow(starts, 0) > k;
  }

  /** A completion delivered to a waiting run continues it with exactly
      one call of `iterate`; a run that is not waiting ignores it. */
  lemma {:induction false} SeriesFromExtend(starts: StartTable, exits: seq<JsValue>, x: JsValue, next: nat, err: JsValue)
    requires next <= |exits|
    ensures var tr := SeriesFrom(starts, exits, next, err);
      SeriesFrom(starts, exits + [x], next, err) ==
        tr + (if Waiting(tr) then IterateActions(starts, |exits| + 1, x) else [])
    decreases |starts| - next
  {
    var acts := IterateActions(starts, next, err);
    if !Waiting(acts) {
      ExtendStopped(starts, exits, x, next, err);
    } else if next < |exits| {
      SeriesFromExtend(starts, exits, x, next + 1, exits[next]);
      ExtendInner(starts, exits, x, next, err);
    } else {
      ExtendLast(starts, exits, x, next, err);
    }
  }

  lemma ExtendStopped(starts: StartTable, exits: seq<JsValue>, x: JsValue, next: nat, err: JsValue)
    requires !Waiting(IterateActions(starts, next, err))
    ensures SeriesFrom(starts, exits + [x], next, err) == SeriesFrom(starts, exits, next, err)
    ensures !Waiting(SeriesFrom(starts, exits, next, err))
  {
  }

  lemma ExtendLast(starts: StartTable, exits: seq<JsValue>, x: JsValue, next: nat, err: JsValue)
    requires Waiting(IterateActions(starts, next, err)) && next == |exits|
    ensures var tr := SeriesFrom(starts, exits, next, err);
      Waiting(tr) && SeriesFrom(starts, exits + [x], next, err) == tr + IterateActions(starts, |exits| + 1, x)
  {
    var exits' := exits + [x];
    assert exits'[next] == x;
    assert SeriesFrom(starts, exits', next + 1, x) == IterateActions(starts, next + 1, x);
  }

  lemma ExtendInner(starts: StartTable, exits: seq<JsValue>, x: JsValue, next: nat, err: JsValue)
    requires Waiting(IterateActions(starts, next, err)) && next < |exits|
    requires var rest := SeriesFrom(starts, exits, next + 1, exits[next]);
      SeriesFrom(starts, exits + [x], next + 1, exits[next]) ==
        rest + (if Waiting(rest) then IterateActions(starts, |exits| + 1, x) else [])
    ensures var tr := SeriesFrom(starts, exits, next, err);
      SeriesFrom(starts, exits + [x], next, err) ==
        tr + (if Waiting(tr) then IterateActions(starts, |exits| + 1, x) else [])
  {
    var acts := IterateActions(starts, next, err);
    var exits' := exits + [x];
    assert exits'[next] == exits[next];
    var rest := SeriesFrom(starts, exits, next + 1, exits[next]);
    assert SeriesFrom(starts, exits, next, err) == acts + rest;
    assert SeriesFrom(starts, exits', next, err) == acts + SeriesFrom(starts, exits', next + 1, exits[next]);
    WaitingAppend(acts, rest);
  }

  lemma WaitingAppend(a: seq<Action>, b: seq<Action>)
    requires b != []
    ensures Waiting(a + b) == Waiting(b)
  {
    assert (a + b)[|a + b| - 1] == b[|b| - 1];
  }

  /** The closure state of one `spawnSeries` call: the index `i` of the
      running step and the actions so far; `iterate` is the method. */
  class SeriesRun {
    const commands: seq<JsValue>
    const setup: Setup
    const defaults: map<string, JsValue>
    var i: int
    var trace: seq<Action>
    /** The completion values delivered so far. */
    ghost var exits: seq<JsValue>

    ghost predicate Valid()
      reads this
    {
      && i >= -1
      && trace == SeriesTrace(commands, setup.options, defaults, exits)
      && (Waiting(trace) ==> i == |exits|)
    }

    /** `spawnSeries(commands, ...rest)`: the argument switch, then `iterate(0)`. */
    constructor (commands: seq<JsValue>, rest: seq<JsValue>, defaults: map<string, JsValue>)
      ensures this.commands == commands && setup == OrchestrationArgs(rest) && this.defaults == defaults
      ensures exits == [] && Valid()
    {
      this.commands := commands;
      this.setup := OrchestrationArgs(rest);
      this.defaults := defaults;
      i := -1;
      trace := [];
      exits := [];
      new;
      Step(Num(0));
    }

    /** The body of `iterate(err)`. */
    method Step(err: JsValue)
      requires i >= -1
      modifies this
      ensures exits == old(exits) && i >= -1
      ensures i == if Truthy(err) then old(i) else old(i) + 1
      ensures trace == old(trace) + IterateActions(Starts(commands, setup.options, defaults), old(i) + 1, err)
      ensures Waiting(IterateActions(Starts(commands, setup.options, defaults), old(i) + 1, err)) ==> i == old(i) + 1
    {
      if !Truthy(err) {
        i := i + 1;
        if i < |commands| {
          var start := Start(commands[i], i, setup.options, defaults);
          assert start == Starts(commands, setup.options, defaults)[i];
          if start.Err? {
            trace := trace + [Threw(start.error)];
          } else {
            trace := trace + [start.value, Observed(i)];
          }
          return;
        }
      }
      trace := trace + [Finished(err)];
    }

    /** The exit of the running step (or the call of a step function's
        continuation) with `err`. */
    method Iterate(err: JsValue)
      requires Valid() && Waiting(trace)
      modifies this
      ensures exits == old(exits) + [err] && Valid()
      ensures trace == old(trace) + IterateActions(Starts(commands, setup.options, defaults), |old(exits)| + 1, err)
    {
      SeriesFromExtend(Starts(commands, setup.options, defaults), exits, err, 0, Num(0));
      Step(err);
      exits := exits + [err];
    }
  }

  /** A run that has stopped or thrown ignores further completions. */
  lemma {:induction false} StoppedStays(starts: StartTable, exits: seq<JsValue>, k: nat)
    requires k <= |exits| && !Waiting(SeriesFrom(starts, exits[..k], 0, Num(0)))
    ensures SeriesFrom(starts, exits, 0, Num(0)) == SeriesFrom(starts, exits[..k], 0, Num(0))
    decreases |exits| - k
  {
    if k < |exits| {
      SeriesFromExtend(starts, exits[..k], exits[k], 0, Num(0));
      assert exits[..k] + [exits[k]] == exits[..k + 1];
      StoppedStays(starts, exits, k + 1);
    } else {
      assert exits[..k] == exits;
    }
  }

  /** `spawnSeries(commands, ...rest)` with the steps completing with
      `exits`, delivered one at a time while the run waits for them. */
  method SpawnSeries(commands: seq<JsValue>, rest: seq<JsValue>, defaults: map<string, JsValue>, exits: seq<JsValue>)
    returns (trace: seq<Action>)
    ensures trace == SeriesTrace(commands, OrchestrationArgs(rest).options, defaults, exits)
  {
    var run := new SeriesRun(commands, rest, defaults);
    ghost var starts := Starts(commands, run.setup.options, defaults);
    var k := 0;
    while k < |exits| && Waiting(run.trace)
      invariant k <= |exits| && run.Valid() && run.exits == exits[..k]
      invariant run.commands == commands && run.setup == OrchestrationArgs(rest) && run.defaults == defaults
      decreases |exits| - k
    {
      run.Iterate(exits[k]);
      assert exits[..k] + [exits[k]] == exits[..k + 1];
      k := k + 1;
    }
    trace := run.trace;
    if k < |exits| {
      StoppedStays(starts, exits, k);
    } else {
      assert exits[..k] == exits;
    }
  }
}
