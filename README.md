# node-anyspawn, modelled in Dafny

node-anyspawn is a small Node.js library that launches child processes. It
exposes `spawn` and `exec` for a single command, and `spawnSeries` and
`spawnParallel` for lists of commands. Every entry point accepts a loose
call shape (`cmd`, optional argument array, optional options, optional
completion callback). The private `_spawnArgs` normalises that shape into
a quadruple `[cmd, args, options, done]` and throws on call shapes it
cannot classify. Options are layered by `getOptions`, using a copy of
jQuery's `extend`: the library defaults first, then the
orchestration-wide options, then the caller's own. Before a launch,
`_spawn` may hand a display form of the command line to an announcement
hook (`options.prompt`). In that display form, `quoteArg` quotes the
arguments that contain whitespace.

`exec` captures stdout and stderr. It joins three completion signals (the
child's `close` and the `end` of each stream) and then calls
`done(error, output, code)` exactly once. `spawnSeries` runs its items one after
another. It stops at the first truthy completion value, or at an item whose
`_spawnArgs` throws. `spawnParallel` starts every item in one synchronous loop.
It counts completions, and at the last one calls `done` with `null` or with
the array of all completion values.

The model consists of these modules:

- `Results`, `Js` (jsvalue.dfy): the JavaScript values the library inspects. Objects are maps of their own enumerable properties and functions are identities (`FnRef`). The module also models `typeof`, truthiness, `Array.isArray`, and lodash's `isObject` and `isFunction`, which are reduced to value tags.
- `Seqs` (seqs.dfy): four generic facts about sequence slices, used by the proofs.
- `Quoting` (quoting.dfy): `quoteArg` and the text `_spawn` passes to the announcement hook.
- `Options` (options.dfy): the shallow path of `extend` as imperative loops over a map, and `getOptions` with its prompt fix-up. Both are specified by the fold `LayerAll` and by the reference function `LastDefined`.
- `Arguments` (arguments.dfy): the type switch of `_spawnArgs` and its five error messages.
- `Exec` (exec.dfy): the stdio routing of `exec`, and its join as a class (`ExecJoin`). The class holds the closure's `count`, `out`, `err`, `out.code` and the calls of `done`. Each handler changes these in place. The state is tied to a fold over the sequence of handler invocations.
- `Orchestration` (orchestration.dfy): the argument switch shared by `spawnSeries` and `spawnParallel`. It also defines how one list item starts and the observable-action trace both orchestrators are stated in:
  - `Launched`, a call of `_spawn`;
  - `Invoked`, a step function called with its continuation;
  - `Observed`, the step callback;
  - `Finished`, `done`;
  - `Threw`, a throw from `_spawnArgs`.
- `Series` (series.dfy): `spawnSeries`, as the class `SeriesRun`. Its `Step` is `iterate`, and the trace is tied to the reference function `SeriesTrace`. A driver (`SpawnSeries`) delivers a list of completion values to the run.
- `Parallel` (parallel.dfy): the launch loop of `spawnParallel` as a method. The shared `checkAndCallDone` state is the class `ParallelJoin`, tied to the fold `Collect`.

Completion values arrive from the outside world. The series and parallel
models take them as parameters. `exits[k]` is the value step `k` completes
with: a child's exit code, or the argument a step function passes to its
continuation.

### Where the code and its documentation disagree

The model follows the code in each of these cases:

- `quoteArg` replaces every double quote inside a quoted argument by a single backslash. It does not escape the quote by prefixing a backslash, which is what display quoting of a shell argument calls for. `Quoting.QuoteArg` models the replacement. `Quoting.QuoteArgTwice` shows what re-quoting then does.
- `spawnParallel` appends each completion value to `errors` in arrival order, falsy values included. It does not store each one in its item's slot.
- `spawnParallel` with an empty list never calls `done`, because the `++count === _len` test is only reached from a completion. `spawnSeries` with an empty list calls `done(0)`, passing the `0` of `iterate(0)`.
- `exec` decides on a null error from the code passed to the *last* of the three `end` calls. That is the `close` code only when `close` comes last. A stream `end` passes no code, so when a stream ends last the error is the stderr text, even when it is empty.
- `_spawnArgs` with three arguments and an array second argument accepts any third argument: a non-object third argument means `{}`.
- An item whose `_spawnArgs` throws ends the loop of `spawnParallel` with the throw. The completions of the items already started can then never reach the list length, so `done` is never called.
- `spawnSeries` invokes a step function before calling the step callback. `spawnParallel` calls the step callback first.

## Model

| member | source | states |
|---|---|---|
| Js.ObjectTags | index.js:495-506 | `isObject` holds exactly for arrays, functions, objects and host streams; `isFunction` holds exactly for values of type function |
| Js.Arg | index.js:318-323 | reading a position past the end of the argument list gives undefined |
| Quoting.ReplaceQuotes | index.js:28 | the result has the input's length; each double quote becomes a backslash, and every other character stays in place |
| Quoting.QuoteArg | index.js:27-29 | an argument without whitespace is returned unchanged; one with whitespace comes back two characters longer, between double quotes, with each inner quote turned into a backslash and no double quote left inside |
| Quoting.QuoteArgIdempotentOnPlain | index.js:27-29 | quoting an argument without whitespace twice gives the argument itself |
| Quoting.QuoteArgKeepsWhitespace | index.js:27-29 | the display form has whitespace if and only if the argument has |
| Quoting.QuoteArgTwice | index.js:27-29 | quoting is not idempotent on arguments with whitespace: re-quoting turns the outer quotes into backslashes inside new quotes |
| Quoting.QuoteAll | index.js:301 | `args.map(quoteArg)` keeps the length and quotes each element |
| Quoting.PromptText | index.js:299-307 | the hook is called if and only if `options.prompt` is truthy; with an argument array the text is exactly the announcement (`cmd`, a space, the quoted arguments joined by spaces), and without one it is the command alone |
| Quoting.AnnouncementOfPlainArgs | index.js:301 | when no argument has whitespace, the announcement is the command, a space and the arguments joined by spaces |
| Quoting.CountQuotesOfQuoteArg | index.js:28 | a quoted argument shows exactly two double quotes; any other argument shows its own |
| Quoting.AnnouncementQuotes | index.js:301 | the announcement holds the command's quotes plus, per argument, two quotes if it has whitespace and its own quotes otherwise |
| Options.Extend | index.js:452-484 | the outer loop of `extend` into a fresh target equals the left-to-right fold `LayerAll` over the sources |
| Options.CopyProps | index.js:456-482 | the inner `for (name in options)` loop adds every property whose value is not undefined, overwriting, and keeps the rest of the target |
| Options.LayerAllLaterWins | index.js:452-484 | after layering, a name is present if and only if some source defines it or it was already present; its value is that of the last source that defines it (the reference `LastDefined`) |
| Options.LayerAllCopiesNoUndefined | index.js:479-481 | layering never introduces an undefined value |
| Options.GetOptions | index.js:401-409 | the method computes `OptionsFor`: the three-source layering, then the prompt fix-up |
| Options.OptionsPrecedence | index.js:401-403 | for every name except `prompt`: the name is present if and only if one of the three sources defines it; the caller's value beats the orchestration's, which beats the library default |
| Options.OptionsPrompt | index.js:401-406 | the prompt is the layered one (caller, then orchestration defaults, then library default) when that is falsy or a function, and exactly the library default when it is truthy and not a function; so a caller's prompt function always wins, and the only undefined value the result can hold is a missing default prompt |
| Arguments.ClassifyArgs | index.js:325-394 | the command is passed on unchanged; `args` is the caller's second argument or null and never a truthy non-array; options are object-typed, or undefined in the (cmd, Array) form; `done` is the no-op or one of the caller's functions; errors name the call length, and a one-argument call never throws |
| Arguments.DocumentedUsages | index.js:325-394 | each of the seven documented call shapes is accepted with the expected quadruple |
| Arguments.TwoArguments | index.js:331-348 | two arguments are accepted if and only if the second is an array, a function or a truthy object |
| Arguments.ThreeArguments | index.js:349-373 | with an array second argument every third argument is accepted: `args` is that array, `done` is the third argument when it is a function and the no-op otherwise, and a non-function third argument becomes the options only if it is an object (`{}` otherwise); with any other second argument, only (object, function) is accepted, giving null `args`, the object as options and the function as `done` |
| Arguments.OtherArities | index.js:374-394 | zero or four and more arguments are accepted if and only if each present position has the right type; the checks run in order (args, options, done) and the first that fails names the error; `args` passes through, an object option is kept and any other becomes `{}`, and `done` is the fourth argument when it is a function and the no-op otherwise |
| Exec.ResolveStdio | index.js:87-106 | stdout and stderr are always piped; each stream is passed through if and only if the request inherits it (`'inherit'`, the slot `'inherit'`, the descriptor number, or the parent's stream) |
| Exec.ExecOptions | index.js:87-94 | `options.stdio` is replaced by the resolved array, and every other option is unchanged |
| Exec.StdioDefaultIsCaptured | index.js:87-106 | a missing or falsy stdio captures all three streams and passes nothing through |
| Exec.StdioInheritAll | index.js:87-106 | `'inherit'` hands stdin to the child and passes both output streams through |
| Exec.StdioOtherString | index.js:92-106 | any other string becomes stdin's mode and passes nothing through |
| Exec.StdioArray | index.js:87-106 | an array request of any length gives its slot 0 (undefined when absent) to stdin; each output stream is passed through if and only if its slot asks for inheritance |
| Exec.StdioOtherValue | index.js:87-93 | a truthy request that is neither an array nor a string leaves stdin piped |
| Exec.RunAccumulates | index.js:110-142 | after any handler sequence, `out` and `err` hold each stream's chunks in arrival order, the pass-through repeats them only when enabled, `count` is three minus the `end` calls, and `out.code` is the latest truthy code |
| Exec.DoneAtMostOnce | index.js:110-128 | `done` is called once if `end` ran at least three times, and never otherwise |
| Exec.DoneOnThirdEnd | index.js:113-128 | the one call of `done` happens during the third `end(c)` and reports the stdout text, the latest truthy code, and a null error if and only if `c` is 0 and the stderr text is empty (otherwise the stderr text); later events change nothing |
| Exec.LaterEventsKeepCalls | index.js:118 | once `end` has run three times, no further event calls `done` |
| Exec.ExecJoin.constructor | index.js:80-85 | the closure starts with empty buffers, no code, no calls, and the count of three that the three `count++` reach |
| Exec.ExecJoin.Data | index.js:130-142 | a `data` chunk is appended to its stream's buffer, is echoed only when that stream is passed through, and changes nothing else |
| Exec.ExecJoin.End | index.js:113-128 | `end(c)` records a truthy code and decrements the count; `done` is called exactly when the count reaches zero, with the joined buffers, and at most once in all |
| Exec.StartExec | index.js:87-108 | the child is spawned with `ExecOptions(options)`, and a fresh join with no events or calls passes output through exactly as `ResolveStdio` of `options.stdio` says |
| Orchestration.OrchestrationArgs | index.js:164-185 | no argument after `commands` gives `{}` and two no-ops; a lone function is `done` with `{}` options, and any other lone argument is the options with two no-ops; with two arguments after `commands`, a trailing function is `done` with a no-op callback, and otherwise the second is the callback and `done` is undefined; with three or more, callback and `done` are taken as given; options pass through unless they are the function in `done`'s place |
| Orchestration.DocumentedSetups | index.js:164-185 | each of the five documented call shapes gives the expected options, callback and `done` |
| Orchestration.LaunchAction | index.js:193-207 | launching an item throws if and only if it is an array whose `_spawnArgs` throws, with that error; an array item otherwise launches at its index exactly the quadruple `_spawnArgs(item, options)` returns; any other item launches the item as the command, with null `args`, `getOptions(options)` and the no-op callback |
| Orchestration.ItemOptionsWin | index.js:193-199 | an array item's launch options, for every name but `prompt`: present if and only if the item's own options, the orchestration options or the library defaults define it, with the item's own value winning over the orchestration's, which wins over the library default |
| Orchestration.CommandOptions | index.js:204-206 | any other item's launch options, for every name but `prompt`: present if and only if the orchestration options or the library defaults define it, with the orchestration's value winning |
| Orchestration.StartItem | index.js:192-207 | an item's start fails if and only if it throws, and then carries `_spawnArgs`'s error; otherwise the item's own index is started, and it is invoked if and only if the item is a function |
| Orchestration.StartsWellIndexed | index.js:191-207 | every successful start in the table starts its own index |
| Series.IterateActions | index.js:189-213 | one call of `iterate` does one or two things, and the step callback only ever observes the step just entered |
| Series.SeriesRun.constructor | index.js:160-187 | `spawnSeries` applies the argument switch and then runs `iterate(0)`; the run matches `SeriesTrace` with no completions |
| Series.SeriesRun.Step | index.js:189-213 | the body of `iterate(err)` appends exactly `IterateActions` for the next index; `i` stays on a truthy `err` and moves on by one otherwise |
| Series.SeriesRun.Iterate | index.js:208 | a completion of the running step continues the run with one call of `iterate`, and the run stays equal to `SeriesTrace` for the completions so far |
| Series.SpawnSeries | index.js:160-213 | delivering the completions one by one while the run waits produces `SeriesTrace` for all of them |
| Series.StoppedStays | index.js:191-211 | a run that has ended ignores any further completions |
| Series.SeriesObservesStarted | index.js:200-209 | the callback observes exactly the steps started, in the same order |
| Series.SeriesStarted | index.js:189-213 | the steps started are the consecutive indices up to the first item that throws, or the first step that failed or is still running |
| Series.SeriesTerminals | index.js:189-213 | a throw ends the run without `done`; otherwise `done` is called once, with the first truthy completion value or the last one, or not yet while a step runs |
| Series.SeriesEndsAtTerminal | index.js:191-212 | nothing happens after `done` is called or a throw |
| Series.SeriesLaunches | index.js:192-207 | every started step is its item started with the orchestration options |
| Series.SeriesEmpty | index.js:187-211 | an empty list calls `done(0)` at once |
| Series.SeriesAllSucceed | index.js:189-213 | when no item throws and every step succeeds, all steps start in order and `done` gets the last completion value |
| Series.SeriesStopsAtFailure | index.js:191-211 | the first truthy completion value ends the run: no later step starts, and `done` gets that value |
| Series.SeriesFromExtend | index.js:208 | one more completion extends a waiting run by exactly one call of `iterate`; a run that is not waiting is unchanged |
| Parallel.ParallelStep | index.js:262-283 | a throwing item is a throw; any other item is one start and one observation of its index, with the observation first only for a step function |
| Parallel.LaunchParallel | index.js:258-260 | the `for` loop's actions are the concatenation of the steps up to and including the first throw |
| Parallel.ParallelLaunchShape | index.js:258-283 | the loop starts and observes the consecutive indices up to the first throwing item, and its only terminal is that throw |
| Parallel.ParallelLaunches | index.js:265-279 | every started step is its item started with the orchestration options |
| Parallel.ParallelAllStarted | index.js:258-283 | when no item throws, every item is started and observed in order, and the loop neither throws nor calls `done` |
| Parallel.ParallelThrowStops | index.js:258-271 | a throwing item stops the loop: at most the earlier items have started, and the throw is the only terminal |
| Parallel.AnyTruthyMeans | index.js:286-288 | `hasError`'s reference is equivalent to "some completion value is truthy" |
| Parallel.Report | index.js:292 | `done` gets null if and only if no completion value is truthy, and the array of all values otherwise |
| Parallel.CollectClosedForm | index.js:285-294 | after any completions, `errors` holds all of them in arrival order, `count` their number, and `hasError` whether one is truthy; `done` is called once, at the `total`-th, with the report of the first `total` values, and never for an empty list |
| Parallel.ThrowMeansNoDone | index.js:258-294 | when an item throws, the loop has started fewer steps than there are items; so if each started step completes at most once, the count never reaches the list length and `done` is not called |
| Parallel.ParallelJoin.constructor | index.js:230-233 | the fan-in starts with no completions, a count of zero and no error |
| Parallel.ParallelJoin.CheckAndCallDone | index.js:285-294 | a completion is appended to `errors`, sets `hasError` when truthy and increments `count`; when the count reaches the list length, `done` is called with `errors` or null |
| Parallel.SpawnParallel | index.js:229-260 | `spawnParallel` applies the argument switch, runs the launch loop with the resulting options, and sets the fan-in for the list's length |
| Parallel.FanInRun | index.js:285-294 | delivering completions one by one keeps them all in `errors`; `done` is called once, with the report of the first `total`, if and only if at least `total` (and at least one) completions arrive |

## Left out

- Process creation (`child_process.spawn`, `spawn-command`), `process.stdout.write` and `process.stderr.write`, and the EventEmitter wiring (`once('exit')`, `once('close')`, `on('data')`, `on('end')`) are not modelled. The child's events and exit values enter the model as parameters: the handler sequence of `exec`, and the completion values of the orchestrators.
- The `spawn` entry point (lines 47-56) is `_spawnArgs` followed by `_spawn`. The model covers its two modelled parts: `Arguments.SpawnArgs`, and `Quoting.PromptText` for the announcement. The launch itself is I/O.
- Apart from its text, the call of the announcement hook is left out. So are its other arguments (`cwd`, user name, host name) and the library's own `prompt` function (lines 411-414), which only formats and prints.
- `_spawn` attaching `done` to `close` (lines 311-313) is event wiring. In `exec`, `_spawn` is called without `done`.
- Deep `extend` (a leading `true`, recursion, `clone`), a non-object target, and the `target === copy` guard are left out. The library only calls `extend({}, ...)`, so the target is always fresh and the guard cannot fire. `clone` (lines 418-426) is not used by the modelled code.
- Property enumeration: inherited enumerable properties, property order, and non-index array properties are left out. An object is modelled by its own properties only.
- `Num` holds integers only: NaN, fractions and `-0` are left out. Their truthiness would follow the same rule (`0`, `-0` and NaN are falsy).
- Aliasing is left out: `exec` writes `options.stdio` into the options object of the quadruple, and the `errors` array handed to `done` stays shared. Values are immutable in the model.
- The arguments the step callback receives other than the index (`cmd`, `child`, `opts`) are left out. A step function gets an undefined `child` and `opts`.
- A step function that calls its continuation synchronously, or more than once, is left out. The trace of a series assumes each step completes at most once, after its start. The series driver delivers one completion per waiting step.
- Moving the throw of a parallel item out of the loop is left out. The trace stops at the throw, and nothing after it, including the exception's propagation to the caller, is modelled.
- Non-function values used as a callback or `done` (a `TypeError` when called) are left out. The trace records the call instead.
- `Exec.ExecJoin.End`: the code is an optional integer, so non-numeric truthy arguments of `end` are left out.
- `Quoting.PromptText`: arguments in the array that are not strings (`quoteArg` would run the regular expression on their string form) are left out. The model takes the arguments as strings.
