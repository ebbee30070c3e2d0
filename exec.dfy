/** `exec`: stdio routing and the join of the three completion signals
    (`close` of the child, `end` of its stdout, `end` of its stderr). */
module Exec {
  import opened Results
  import opened Js
  import opened Seqs

  // ---------------------------------------------------------------------
  // Stdio routing
  // ---------------------------------------------------------------------

  /** The `options.stdio` array exec launches with, and whether captured
      stdout and stderr chunks are also passed through to the parent. */
  datatype StdioPlan = StdioPlan(stdio: seq<JsValue>, passOut: bool, passErr: bool)

  /** Whether the requested routing for stream `fd` (1 or 2) is inheritance:
      the string "inherit" for everything, or slot `fd` holding "inherit",
      the descriptor number, or the parent's own stream object. */
  predicate Inherits(stdio: JsValue, fd: nat) {
    stdio == Str("inherit") || Elem(stdio, fd) == Str("inherit")
    || Elem(stdio, fd) == Num(fd) || Elem(stdio, fd) == HostStream(fd)
  }

  /** Output is always captured through pipes; only stdin follows the
      request (slot 0 of an array, or the whole string). */
  function ResolveStdio(requested: JsValue): (p: StdioPlan)
    ensures |p.stdio| == 3 && p.stdio[1] == Str("pipe") && p.stdio[2] == Str("pipe")
    ensures p.passOut == Inherits(if Truthy(requested) then requested else Str("pipe"), 1)
    ensures p.passErr == Inherits(if Truthy(requested) then requested else Str("pipe"), 2)
  {
    var stdio := if Truthy(requested) then requested else Str("pipe");
    var first := if IsArray(stdio) then Elem(stdio, 0) else if stdio.Str? then stdio else Str("pipe");
    StdioPlan([first, Str("pipe"), Str("pipe")], Inherits(stdio, 1), Inherits(stdio, 2))
  }

  /** The options exec launches with: `options.stdio` overwritten, every
      other option untouched. */
  function ExecOptions(options: map<string, JsValue>): (r: map<string, JsValue>)
    ensures "stdio" in r && r["stdio"] == Arr(ResolveStdio(Get(options, "stdio")).stdio)
    ensures forall k :: k != "stdio" ==> (k in r <==> k in options) && Get(r, k) == Get(options, k)
  {
    options["stdio" := Arr(ResolveStdio(Get(options, "stdio")).stdio)]
  }

  lemma {:induction false} StdioDefaultIsCaptured(requested: JsValue)
    requires !Truthy(requested)
    ensures ResolveStdio(requested) == StdioPlan([Str("pipe"), Str("pipe"), Str("pipe")], false, false)
  {
  }

  lemma {:induction false} StdioInheritAll()
    ensures ResolveStdio(Str("inherit")) == StdioPlan([Str("inherit"), Str("pipe"), Str("pipe")], true, true)
  {
  }

  /** A string other than "inherit" never passes output through. */
  lemma {:induction false} StdioOtherString(s: string)
    requires s != "inherit"
    ensures ResolveStdio(Str(s)).stdio[0] == if s == "" then Str("pipe") else Str(s)
    ensures !ResolveStdio(Str(s)).passOut && !ResolveStdio(Str(s)).passErr
  {
    if |s| > 1 {
      assert |[s[1]]| != |"inherit"|;
    }
    if |s| > 2 {
      assert |[s[2]]| != |"inherit"|;
    }
  }

  /** An array request of any length: stdin takes slot 0, stream `fd` is
      passed through when slot `fd` asks for inheritance; a missing slot
      reads as undefined. */
  lemma {:induction false} StdioArray(s: seq<JsValue>)
    ensures var p := ResolveStdio(Arr(s));
      && p.stdio[0] == Arg(s, 0)
      && (p.passOut <==> Arg(s, 1) == Str("inherit") || Arg(s, 1) == Num(1) || Arg(s, 1) == HostStream(1))
      && (p.passErr <==> Arg(s, 2) == Str("inherit") || Arg(s, 2) == Num(2) || Arg(s, 2) == HostStream(2))
  {
  }

  /** Any other truthy request (an object, a number, a stream) leaves stdin
      piped. */
  lemma {:induction false} StdioOtherValue(v: JsValue)
    requires Truthy(v) && !v.Arr? && !v.Str?
    ensures ResolveStdio(v).stdio[0] == Str("pipe")
  {
  }

  // ---------------------------------------------------------------------
  // The join
  // ---------------------------------------------------------------------

  datatype Stream = Stdout | Stderr

  /** What the child delivers to exec's handlers: a `data` chunk on one of
      the streams, or a call of `end` (from `close`, with the exit code, or
      from a stream's `end`, with none). */
  datatype ExecEvent = Chunk(stream: Stream, data: string) | End(code: Option<int>)

  /** The arguments of `done(error, output, code)`; `None` stands for null
      (error) or undefined (code). */
  datatype Outcome = Outcome(error: Option<string>, output: string, code: Option<int>)

  /** The closure state of exec: `count`, the `out` and `err` buffers,
      `out.code`, the chunks passed through, and every call of `done`. */
  datatype JoinState = JoinState(
    count: int, out: seq<string>, err: seq<string>, code: Option<int>,
    echoOut: seq<string>, echoErr: seq<string>, calls: seq<Outcome>)

  /** Three synchronous `count++` run before any event can be delivered. */
  function Initial(): JoinState {
    JoinState(3, [], [], None, [], [], [])
  }

  predicate TruthyCode(code: Option<int>) {
    code.Some? && code.value != 0
  }

  /** `chunks.join('')` */
  function Concat(chunks: seq<string>): string
    decreases |chunks|
  {
    if chunks == [] then "" else chunks[0] + Concat(chunks[1..])
  }

  /** The call of `done` made when the count drops to zero inside `end(code)`. */
  function Finish(code: Option<int>, s: JoinState): Outcome {
    var output := Concat(s.out);
    var error := Concat(s.err);
    if code == Some(0) && |error| == 0 then Outcome(None, output, s.code)
    else Outcome(Some(error), output, s.code)
  }

  /** One handler invocation. */
  function Step(passOut: bool, passErr: bool, s: JoinState, e: ExecEvent): JoinState {
    match e
    case Chunk(Stdout, c) => s.(out := s.out + [c], echoOut := if passOut then s.echoOut + [c] else s.echoOut)
    case Chunk(Stderr, c) => s.(err := s.err + [c], echoErr := if passErr then s.echoErr + [c] else s.echoErr)
    case End(code) =>
      var s1 := s.(code := if TruthyCode(code) then code else s.code, count := s.count - 1);
      if s1.count == 0 then s1.(calls := s1.calls + [Finish(code, s1)]) else s1
  }

  /** The state after a sequence of handler invocations. */
  function Run(passOut: bool, passErr: bool, events: seq<ExecEvent>): JoinState
    decreases |events|
  {
    if events == [] then Initial()
    else Step(passOut, passErr, Run(passOut, passErr, events[..|events| - 1]), events[|events| - 1])
  }

  lemma RunSnoc(passOut: bool, passErr: bool, events: seq<ExecEvent>, e: ExecEvent)
    ensures Run(passOut, passErr, events + [e]) == Step(passOut, passErr, Run(passOut, passErr, events), e)
  {
    TakeOfSnoc(events, e);
  }

  // Reference definitions, read off the event sequence alone.

  /** The data chunks of one stream, in arrival order. */
  function ChunksOf(stream: Stream, events: seq<ExecEvent>): seq<string>
    decreases |events|
  {
    if events == [] then []
    else
      var last := events[|events| - 1];
      ChunksOf(stream, events[..|events| - 1]) + (if last.Chunk? && last.stream == stream then [last.data] else [])
  }

  /** How many times `end` was called. */
  function Ends(events: seq<ExecEvent>): nat
    decreases |events|
  {
    if events == [] then 0 else Ends(events[..|events| - 1]) + (if events[|events| - 1].End? then 1 else 0)
  }

  /** The most recent truthy code passed to `end`, if any. */
  function LastTruthyCode(events: seq<ExecEvent>): Option<int>
    decreases |events|
  {
    if events == [] then None
    else
      var last := events[|events| - 1];
      if last.End? && TruthyCode(last.code) then last.code else LastTruthyCode(events[..|events| - 1])
  }

  /** The buffers hold each stream's chunks in arrival order, the pass-through
      repeats them when enabled, the count is three minus the `end` calls, and
      `out.code` is the most recent truthy code. */
  lemma {:induction false} RunAccumulates(passOut: bool, passErr: bool, events: seq<ExecEvent>)
    ensures var s := Run(passOut, passErr, events);
      && s.out == ChunksOf(Stdout, events)
      && s.err == ChunksOf(Stderr, events)
      && s.echoOut == (if passOut then ChunksOf(Stdout, events) else [])
      && s.echoErr == (if passErr then ChunksOf(Stderr, events) else [])
      && s.count == 3 - Ends(events)
      && s.code == LastTruthyCode(events)
    decreases |events|
  {
    if events != [] {
      var prefix, last := events[..|events| - 1], events[|events| - 1];
      RunAccumulates(passOut, passErr, prefix);
      StepAccumulates(passOut, passErr, Run(passOut, passErr, prefix), prefix, last);
      SplitLast(events);
    }
  }

  predicate Accounts(passOut: bool, passErr: bool, s: JoinState, events: seq<ExecEvent>) {
    && s.out == ChunksOf(Stdout, events)
    && s.err == ChunksOf(Stderr, events)
    && s.echoOut == (if passOut then ChunksOf(Stdout, events) else [])
    && s.echoErr == (if passErr then ChunksOf(Stderr, events) else [])
    && s.count == 3 - Ends(events)
    && s.code == LastTruthyCode(events)
  }

  lemma {:induction false} StepAccumulates(passOut: bool, passErr: bool, s: JoinState, events: seq<ExecEvent>, e: ExecEvent)
    requires Accounts(passOut, passErr, s, events)
    ensures Accounts(passOut, passErr, Step(passOut, passErr, s, e), events + [e])
  {
    SnocViews(events, e);
    match e
    case Chunk(stream, c) =>
    case End(code) =>
  }

  /** The reference views of `events + [e]`, one event at a time. */
  lemma {:induction false} SnocViews(events: seq<ExecEvent>, e: ExecEvent)
    ensures ChunksOf(Stdout, events + [e]) == ChunksOf(Stdout, events) + (if e.Chunk? && e.stream == Stdout then [e.data] else [])
    ensures ChunksOf(Stderr, events + [e]) == ChunksOf(Stderr, events) + (if e.Chunk? && e.stream == Stderr then [e.data] else [])
    ensures Ends(events + [e]) == Ends(events) + (if e.End? then 1 else 0)
    ensures LastTruthyCode(events + [e]) == if e.End? && TruthyCode(e.code) then e.code else LastTruthyCode(events)
  {
    var evs := events + [e];
    TakeOfSnoc(events, e);
  }

  /** `done` is called at most once, and exactly when `end` has been called
      at least three times. */
  lemma {:induction false} DoneAtMostOnce(passOut: bool, passErr: bool, events: seq<ExecEvent>)
    ensures |Run(passOut, passErr, events).calls| == if Ends(events) >= 3 then 1 else 0
    decreases |events|
  {
    if events != [] {
      var prefix := events[..|events| - 1];
      DoneAtMostOnce(passOut, passErr, prefix);
      RunAccumulates(passOut, passErr, prefix);
    }
  }

  /** The single call of `done` happens in the third `end` call, `End(c)`,
      and reports what had arrived before it: the stdout text, null as the
      error exactly when `c` is 0 and the stderr text is empty (the stderr
      text otherwise), and the most recent truthy code. Later events change
      nothing. */
  lemma {:induction false} DoneOnThirdEnd(passOut: bool, passErr: bool,
                                          pre: seq<ExecEvent>, c: Option<int>, post: seq<ExecEvent>)
    requires Ends(pre) == 2
    ensures Ends(pre + [End(c)] + post) >= 3
    ensures var calls := Run(passOut, passErr, pre + [End(c)] + post).calls;
      && |calls| == 1
      && calls[0].output == Concat(ChunksOf(Stdout, pre))
      && calls[0].code == (if TruthyCode(c) then c else LastTruthyCode(pre))
      && (calls[0].error == None <==> c == Some(0) && Concat(ChunksOf(Stderr, pre)) == "")
      && (calls[0].error.Some? ==> calls[0].error.value == Concat(ChunksOf(Stderr, pre)))
  {
    var third := pre + [End(c)];
    TakeOfSnoc(pre, End(c));
    RunAccumulates(passOut, passErr, pre);
    DoneAtMostOnce(passOut, passErr, pre);
    var s := Run(passOut, passErr, pre);
    assert Run(passOut, passErr, third) == Step(passOut, passErr, s, End(c));
    LaterEventsKeepCalls(passOut, passErr, third, post);
  }

  /** Once `end` has been called three times, no event adds a call of `done`. */
  lemma {:induction false} LaterEventsKeepCalls(passOut: bool, passErr: bool,
                                               prev: seq<ExecEvent>, post: seq<ExecEvent>)
    requires Ends(prev) >= 3
    ensures Ends(prev + post) >= 3
    ensures Run(passOut, passErr, prev + post).calls == Run(passOut, passErr, prev).calls
    decreases |post|
  {
    if post == [] {
      assert prev + post == prev;
    } else {
      var post' := post[..|post| - 1];
      var events := prev + post;
      AppendDropLast(prev, post);
      assert events[|events| - 1] == post[|post| - 1];
      LaterEventsKeepCalls(passOut, passErr, prev, post');
      RunAccumulates(passOut, passErr, prev + post');
      StepKeepsCalls(passOut, passErr, Run(passOut, passErr, prev + post'), post[|post| - 1]);
    }
  }

  /** A handler invoked after the count has reached zero calls nothing. */
  lemma StepKeepsCalls(passOut: bool, passErr: bool, s: JoinState, e: ExecEvent)
    requires s.count <= 0
    ensures Step(passOut, passErr, s, e).calls == s.calls
    ensures Step(passOut, passErr, s, e).count <= 0
  {
  }

  /** The closure state of one `exec` call. `calls` records every call of
      `done`; `events` (ghost) records every handler invocation so far. */
  class ExecJoin {
    const passOut: bool
    const passErr: bool
    var count: int
    var out: seq<string>
    var err: seq<string>
    var code: Option<int>
    var echoOut: seq<string>
    var echoErr: seq<string>
    var calls: seq<Outcome>
    ghost var events: seq<ExecEvent>

    function State(): JoinState
      reads this
    {
      JoinState(count, out, err, code, echoOut, echoErr, calls)
    }

    ghost predicate Valid()
      reads this
    {
      State() == Run(passOut, passErr, events)
    }

    /** The handlers as registered by exec; `passOut` and `passErr` come
        from ResolveStdio. */
    constructor (passOut: bool, passErr: bool)
      ensures Valid() && events == []
      ensures this.passOut == passOut && this.passErr == passErr
      ensures count == 3 && out == [] && err == [] && code == None && calls == []
    {
      this.passOut, this.passErr := passOut, passErr;
      count, out, err, code := 3, [], [], None;
      echoOut, echoErr, calls := [], [], [];
      events := [];
    }

    /** A `data` handler: the chunk is buffered, and echoed when the stream
        is passed through. */
    method Data(stream: Stream, chunk: string)
      requires Valid()
      modifies this
      ensures Valid() && events == old(events) + [Chunk(stream, chunk)]
      ensures out == old(out) + (if stream == Stdout then [chunk] else [])
      ensures err == old(err) + (if stream == Stderr then [chunk] else [])
      ensures echoOut == old(echoOut) + (if stream == Stdout && passOut then [chunk] else [])
      ensures echoErr == old(echoErr) + (if stream == Stderr && passErr then [chunk] else [])
      ensures count == old(count) && code == old(code) && calls == old(calls)
    {
      if stream == Stdout {
        out := out + [chunk];
        if passOut {
          echoOut := echoOut + [chunk];
        }
      } else {
        err := err + [chunk];
        if passErr {
          echoErr := echoErr + [chunk];
        }
      }
      events := events + [Chunk(stream, chunk)];
      RunSnoc(passOut, passErr, old(events), Chunk(stream, chunk));
    }

    /** `end(code)`: a truthy code is recorded, the count drops, and when it
        reaches zero `done` is called with the joined buffers. */
    method End(c: Option<int>)
      requires Valid()
      modifies this
      ensures Valid() && events == old(events) + [ExecEvent.End(c)]
      ensures count == old(count) - 1
      ensures code == if TruthyCode(c) then c else old(code)
      ensures out == old(out) && err == old(err) && echoOut == old(echoOut) && echoErr == old(echoErr)
      ensures calls == old(calls) + (if count == 0 then [Finish(c, State())] else [])
      ensures |calls| <= 1
    {
      ghost var s0 := State();
      if TruthyCode(c) {
        code := c;
      }
      count := count - 1;
      if count == 0 {
        calls := calls + [Finish(c, State())];
      }
      events := events + [ExecEvent.End(c)];
      RunSnoc(passOut, passErr, old(events), ExecEvent.End(c));
      assert State() == Step(passOut, passErr, s0, ExecEvent.End(c));
      DoneAtMostOnce(passOut, passErr, events);
    }
  }

  /** The set-up part of `exec` up to the launch: the options the child is
      spawned with, and the join whose pass-through flags follow the
      requested routing. */
  method StartExec(options: map<string, JsValue>) returns (launchOptions: map<string, JsValue>, join: ExecJoin)
    ensures launchOptions == ExecOptions(options)
    ensures fresh(join) && join.Valid() && join.events == [] && join.calls == []
    ensures join.passOut == ResolveStdio(Get(options, "stdio")).passOut
    ensures join.passErr == ResolveStdio(Get(options, "stdio")).passErr
  {
    var plan := ResolveStdio(Get(options, "stdio"));
    launchOptions := options["stdio" := Arr(plan.stdio)];
    join := new ExecJoin(plan.passOut, plan.passErr);
  }
}
