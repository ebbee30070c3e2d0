/** `spawnParallel`: every item of the command list is started in one
    synchronous loop; the completions are counted, and when as many have
    arrived as there are items `done` receives `null` or, if any completion
    value was truthy, the array of all completion values in arrival order. */
module Parallel {
  import opened Results
  import opened Js
  import opened Arguments
  import opened Orchestration
  import opened Seqs

  /** What one `iterate(commands[i], checkAndCallDone)` of the launch loop
      does: a step function is observed by the callback and then invoked;
      any other item is launched and then observed; an item whose
      `_spawnArgs` throws ends the loop with the throw. */
  function ParallelStep(starts: StartTable, i: nat): (r: seq<Action>)
    requires i < |starts|
    ensures starts[i].Err? ==> r == [Threw(starts[i].error)]
    ensures starts[i].Ok? ==> |r| == 2 && starts[i].value in r && Observed(i) in r
    ensures starts[i].Ok? && starts[i].value.Invoked? ==> r[0] == Observed(i)
    ensures starts[i].Ok? && !starts[i].value.Invoked? ==> r[1] == Observed(i)
  {
    match starts[i]
    case Err(e) => [Threw(e)]
    case Ok(a) => if a.Invoked? then [Observed(i), a] else [a, Observed(i)]
  }

  /** The launch loop from item `i` on. */
  function ParallelLaunch(starts: StartTable, i: nat): seq<Action>
    decreases |starts| - i
  {
    if i >= |starts| then []
    else if starts[i].Err? then ParallelStep(starts, i)
    else ParallelStep(starts, i) + ParallelLaunch(starts, i + 1)
  }

  /** `iterate(cmd, checkAndCallDone)` for item `i`. */
  method Iterate(commands: seq<JsValue>, options: JsValue, defaults: map<string, JsValue>, i: nat)
    returns (step: seq<Action>)
    requires i < |commands|
    ensures step == ParallelStep(Starts(commands, options, defaults), i)
    ensures step[0].Threw? <==> Throws(commands[i])
  {
    var start := Start(commands[i], i, options, defaults);
    assert start == Starts(commands, options, defaults)[i];
    if start.Err? {
      return [Threw(start.error)];
    }
    if start.value.Invoked? {
      step := [Observed(i), start.value];
    } else {
      step := [start.value, Observed(i)];
    }
  }

  /** The `for` loop of `spawnParallel`. */
  method LaunchParallel(commands: seq<JsValue>, options: JsValue, defaults: map<string, JsValue>)
    returns (trace: seq<Action>)
    ensures trace == ParallelLaunch(Starts(commands, options, defaults), 0)
  {
    ghost var starts := Starts(commands, options, defaults);
    trace := [];
    for i := 0 to |commands|
      invariant trace + ParallelLaunch(starts, i) == ParallelLaunch(starts, 0)
    {
      var step := Iterate(commands, options, defaults, i);
      if step[0].Threw? {
        trace := trace + step;
        return;
      }
      AppendAssoc(trace, step, ParallelLaunch(starts, i + 1));
      trace := trace + step;
    }
  }

  lemma AppendAssoc(a: seq<Action>, b: seq<Action>, c: seq<Action>)
    ensures a + (b + c) == (a + b) + c
  {
  }

  /** The throw of the first item at or after `i` that throws, if any. */
  function LaunchOutcome(starts: StartTable, i: nat): seq<Action>
    requires i <= |starts|
  {
    var h := FirstThrow(starts, i);
    if h < |starts| then [Threw(starts[h].error)] else []
  }

  /** The launch loop starts and observes every item up to the first that
      throws, and ends with that throw; it never calls `done` itself. */
  lemma {:induction false} ParallelLaunchShape(starts: StartTable, i: nat)
    requires WellIndexed(starts) && i <= |starts|
    ensures Started(ParallelLaunch(starts, i)) == Range(i, FirstThrow(starts, i))
    ensures ObservedSteps(ParallelLaunch(starts, i)) == Range(i, FirstThrow(starts, i))
    ensures Terminals(ParallelLaunch(starts, i)) == LaunchOutcome(starts, i)
    decreases |starts| - i
  {
    if i < |starts| {
      if starts[i].Err? {
        ThrowingStep(starts, i);
      } else {
        StartingStep(starts, i);
        ViewsAppend(ParallelStep(starts, i), ParallelLaunch(starts, i + 1));
        ParallelLaunchShape(starts, i + 1);
        var h := FirstThrow(starts, i);
        assert h == FirstThrow(starts, i + 1);
        assert Range(i, h) == [i] + Range(i + 1, h);
      }
    }
  }

  /** An item that throws ends the loop with the throw. */
  lemma {:induction false} ThrowingStep(starts: StartTable, i: nat)
    requires i < |starts| && starts[i].Err?
    ensures var tr := ParallelLaunch(starts, i);
      Started(tr) == [] && ObservedSteps(tr) == [] && Terminals(tr) == [Threw(starts[i].error)]
  {
    SingleViews(Threw(starts[i].error));
  }

  /** An item that does not throw is started and observed once, and the
      loop goes on. */
  lemma {:induction false} StartingStep(starts: StartTable, i: nat)
    requires WellIndexed(starts) && i < |starts| && starts[i].Ok?
    ensures ParallelLaunch(starts, i) == ParallelStep(starts, i) + ParallelLaunch(starts, i + 1)
    ensures var step := ParallelStep(starts, i);
      Started(step) == [i] && ObservedSteps(step) == [i] && Terminals(step) == []
  {
    var step := ParallelStep(starts, i);
    assert step == [step[0], step[1]];
    PairViews(step[0], step[1]);
  }

  lemma {:induction false} ParallelFromStarts(starts: StartTable, i: nat)
    requires WellIndexed(starts)
    ensures StartsFromTable(starts, ParallelLaunch(starts, i))
    decreases |starts| - i
  {
    if i < |starts| && starts[i].Ok? {
      var step := ParallelStep(starts, i);
      var rest := ParallelLaunch(starts, i + 1);
      var tr := ParallelLaunch(starts, i);
      ParallelFromStarts(starts, i + 1);
      assert tr == step + rest;
      forall j | 0 <= j < |tr| && IsStart(tr[j])
        ensures tr[j].index < |starts| && starts[tr[j].index] == Ok(tr[j])
      {
        if j >= |step| {
          assert tr[j] == rest[j - |step|];
        } else {
          assert tr[j] == step[j] == starts[i].value;
        }
      }
    }
  }

  /** Every step the loop starts is item `index` started with the
      orchestration options, as in a series. */
  lemma {:induction false} ParallelLaunches(cmds: seq<JsValue>, options: JsValue, defaults: map<string, JsValue>)
    ensures var tr := ParallelLaunch(Starts(cmds, options, defaults), 0);
      forall j :: 0 <= j < |tr| && IsStart(tr[j]) ==>
        tr[j].index < |cmds| && StartItem(cmds[tr[j].index], tr[j].index, options, defaults) == Ok(tr[j])
  {
    StartsWellIndexed(cmds, options, defaults);
    ParallelFromStarts(Starts(cmds, options, defaults), 0);
  }

  /** When no item throws, the loop starts and observes every item in
      order and neither throws nor calls `done`. */
  lemma {:induction false} ParallelAllStarted(cmds: seq<JsValue>, options: JsValue, defaults: map<string, JsValue>)
    requires forall i :: 0 <= i < |cmds| ==> !Throws(cmds[i])
    ensures var tr := ParallelLaunch(Starts(cmds, options, defaults), 0);
      Started(tr) == Range(0, |cmds|) && ObservedSteps(tr) == Range(0, |cmds|) && Terminals(tr) == []
  {
    var starts := Starts(cmds, options, defaults);
    StartsWellIndexed(cmds, options, defaults);
    ParallelLaunchShape(starts, 0);
    assert FirstThrow(starts, 0) == |cmds|;
  }

  /** An item that throws stops the loop: at most the items before it have
      started, and the throw is the loop's only terminal. */
  lemma {:induction false} ParallelThrowStops(cmds: seq<JsValue>, options: JsValue, defaults: map<string, JsValue>, k: nat)
    requires k < |cmds| && Throws(cmds[k])
    ensures var tr := ParallelLaunch(Starts(cmds, options, defaults), 0);
      |Started(tr)| <= k && |Terminals(tr)| == 1 && Terminals(tr)[0].Threw?
  {
    var starts := Starts(cmds, options, defaults);
    StartsWellIndexed(cmds, options, defaults);
    ParallelLaunchShape(starts, 0);
    assert starts[k].Err?;
    assert FirstThrow(starts, 0) <= k;
  }

  /** The state shared by the `checkAndCallDone` continuations, and the
      arguments `done` was called with. */
  datatype FanIn = FanIn(count: int, hasError: bool, errors: seq<JsValue>, reports: seq<JsValue>)

  /** One call of `checkAndCallDone(err)` when the list has `total` items. */
  function CheckAndCallDone(total: int, s: FanIn, err: JsValue): FanIn {
    var hasError := s.hasError || Truthy(err);
    var errors := s.errors + [err];
    var count := s.count + 1;
    FanIn(count, hasError, errors,
          s.reports + (if count == total then [if hasError then Arr(errors) else Null] else []))
  }

  /** The state after the completions `comps`, in arrival order. */
  function Collect(total: int, comps: seq<JsValue>): FanIn
    decreases |comps|
  {
    if comps == [] then FanIn(0, false, [], [])
    else CheckAndCallDone(total, Collect(total, comps[..|comps| - 1]), comps[|comps| - 1])
  }

  /** Whether some completion value is truthy. */
  predicate AnyTruthy(errs: seq<JsValue>)
    decreases |errs|
  {
    errs != [] && (AnyTruthy(errs[..|errs| - 1]) || Truthy(errs[|errs| - 1]))
  }

  lemma {:induction false} AnyTruthyMeans(errs: seq<JsValue>)
    ensures AnyTruthy(errs) <==> exists i :: 0 <= i < |errs| && Truthy(errs[i])
    decreases |errs|
  {
    if errs != [] {
      var prev := errs[..|errs| - 1];
      AnyTruthyMeans(prev);
      if AnyTruthy(prev) {
        var i :| 0 <= i < |prev| && Truthy(prev[i]);
        assert errs[i] == prev[i];
      }
      if !AnyTruthy(errs) {
        forall i | 0 <= i < |errs| ensures !Truthy(errs[i]) {
          if i < |prev| {
            assert errs[i] == prev[i];
          }
        }
      }
    }
  }

  /** What `done` is called with after the completions `errs`. */
  function Report(errs: seq<JsValue>): (r: JsValue)
    ensures r == Null <==> !AnyTruthy(errs)
    ensures r != Null ==> r == Arr(errs)
  {
    if AnyTruthy(errs) then Arr(errs) else Null
  }

  /** Closed form of the fan-in: every completion value is kept in arrival
      order, `hasError` says whether one was truthy, and `done` is called
      exactly once, when the `total`-th completion arrives, with the report
      of the first `total` values; an empty list never calls `done`. */
  lemma {:induction false} CollectClosedForm(total: int, comps: seq<JsValue>)
    ensures var s := Collect(total, comps);
      && s.errors == comps
      && s.count == |comps|
      && (s.hasError <==> AnyTruthy(comps))
      && s.reports == if 1 <= total <= |comps| then [Report(comps[..total])] else []
  {
    CollectTally(total, comps);
    CollectReports(total, comps);
  }

  /** The running values: all completions so far, their number, and
      whether one was truthy. */
  lemma {:induction false} CollectTally(total: int, comps: seq<JsValue>)
    ensures var s := Collect(total, comps);
      s.errors == comps && s.count == |comps| && s.hasError == AnyTruthy(comps)
    decreases |comps|
  {
    if comps != [] {
      var prev := comps[..|comps| - 1];
      CollectTally(total, prev);
      SplitLast(comps);
    }
  }

  /** The calls of `done`: one, at the `total`-th completion. */
  lemma {:induction false} CollectReports(total: int, comps: seq<JsValue>)
    ensures Collect(total, comps).reports == if 1 <= total <= |comps| then [Report(comps[..total])] else []
    decreases |comps|
  {
    if comps != [] {
      var prev := comps[..|comps| - 1];
      CollectReports(total, prev);
      CollectTally(total, prev);
      if total == |comps| {
        SplitLast(comps);
        assert comps[..total] == comps;
      } else if 1 <= total < |comps| {
        PrefixOfPrefix(comps, |comps| - 1, total);
      }
    }
  }

  lemma CollectSnoc(total: int, comps: seq<JsValue>, err: JsValue)
    ensures Collect(total, comps + [err]) == CheckAndCallDone(total, Collect(total, comps), err)
  {
    TakeOfSnoc(comps, err);
  }

  /** When an item throws, the launch loop stops before it, so even if
      every started step completes (at most once each), fewer completions
      than items arrive and `done` is never called. */
  lemma {:induction false} ThrowMeansNoDone(cmds: seq<JsValue>, options: JsValue, defaults: map<string, JsValue>,
                                            k: nat, comps: seq<JsValue>)
    requires k < |cmds| && Throws(cmds[k])
    requires |comps| <= |Started(ParallelLaunch(Starts(cmds, options, defaults), 0))|
    ensures Collect(|cmds|, comps).reports == []
  {
    var starts := Starts(cmds, options, defaults);
    StartsWellIndexed(cmds, options, defaults);
    ParallelLaunchShape(starts, 0);
    assert starts[k].Err?;
    assert FirstThrow(starts, 0) <= k;
    CollectClosedForm(|cmds|, comps);
  }

  /** The closure state of `checkAndCallDone`: `errors`, `hasError` and
      `count`, and the calls of `done` so far. */
  class ParallelJoin {
    const total: int
    var count: int
    var hasError: bool
    var errors: seq<JsValue>
    var reports: seq<JsValue>
    /** The completion values delivered so far. */
    ghost var comps: seq<JsValue>

    function State(): FanIn
      reads this
    {
      FanIn(count, hasError, errors, reports)
    }

    ghost predicate Valid()
      reads this
    {
      State() == Collect(total, comps)
    }

    constructor (total: int)
      ensures this.total == total && comps == [] && Valid()
    {
      this.total := total;
      count := 0;
      hasError := false;
      errors := [];
      reports := [];
      comps := [];
    }

    method CheckAndCallDone(err: JsValue)
      requires Valid()
      modifies this
      ensures comps == old(comps) + [err] && Valid()
      ensures hasError == (old(hasError) || Truthy(err))
      ensures errors == old(errors) + [err] && count == old(count) + 1
      ensures reports == old(reports) + (if count == total then [if hasError then Arr(errors) else Null] else [])
    {
      CollectSnoc(total, comps, err);
      var failed := hasError || Truthy(err);
      var pushed := errors + [err];
      var arrived := count + 1;
      var called := reports + (if arrived == total then [if failed then Arr(pushed) else Null] else []);
      hasError, errors, count, reports := failed, pushed, arrived, called;
      comps := comps + [err];
    }
  }

  /** `spawnParallel(commands, ...rest)`: the argument switch, the shared
      fan-in state, and the launch loop. */
  method SpawnParallel(commands: seq<JsValue>, rest: seq<JsValue>, defaults: map<string, JsValue>)
    returns (trace: seq<Action>, join: ParallelJoin)
    ensures trace == ParallelLaunch(Starts(commands, OrchestrationArgs(rest).options, defaults), 0)
    ensures fresh(join) && join.Valid() && join.total == |commands| && join.comps == []
  {
    var setup := OrchestrationArgs(rest);
    join := new ParallelJoin(|commands|);
    trace := LaunchParallel(commands, setup.options, defaults);
  }

  /** The completions `comps` delivered one after the other to the
      `checkAndCallDone` of a list of `total` items: `done` is called once,
      at the `total`-th, with the report of the first `total` values. */
  method FanInRun(total: int, comps: seq<JsValue>) returns (errors: seq<JsValue>, reports: seq<JsValue>)
    ensures errors == comps
    ensures reports == if 1 <= total <= |comps| then [Report(comps[..total])] else []
  {
    var join := new ParallelJoin(total);
    for k := 0 to |comps|
      invariant join.Valid() && join.total == total && join.comps == comps[..k]
    {
      join.CheckAndCallDone(comps[k]);
      assert comps[..k] + [comps[k]] == comps[..k + 1];
    }
    assert comps[..|comps|] == comps;
    CollectClosedForm(total, comps);
    errors, reports := join.errors, join.reports;
  }
}
