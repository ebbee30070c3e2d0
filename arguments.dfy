/** The call-shape normaliser `_spawnArgs`: positional arguments are sorted
    by runtime type into `[cmd, args, options, done]`, or an error is thrown. */
module Arguments {
  import opened Results
  import opened Js
  import opened Options

  /** The errors `_spawnArgs` throws, one per `throw new Error(...)`. */
  datatype ArgError =
    | InvalidArgv          // 2 arguments
    | InvalidArguments     // 3 arguments
    | InvalidArgumentArgs  // 0 or 4+ arguments
    | InvalidArgumentOptions
    | InvalidArgumentDone
  {
    function Message(): string {
      match this
      case InvalidArgv => "Invalid argv"
      case InvalidArguments => "Invalid arguments"
      case InvalidArgumentArgs => "Invalid argument args"
      case InvalidArgumentOptions => "Invalid argument options"
      case InvalidArgumentDone => "Invalid argument done"
    }
  }

  /** The quadruple after the type switch and before option layering:
      `options` is still the caller's value. */
  datatype CallShape = CallShape(cmd: JsValue, args: JsValue, options: JsValue, done: FnRef)

  /** The quadruple `_spawnArgs` returns. */
  datatype Quad = Quad(cmd: JsValue, args: JsValue, options: map<string, JsValue>, done: FnRef)

  function NoOptions(): JsValue {
    Obj(map[])
  }

  /** The `switch (argv.length)` of `_spawnArgs`. */
  function ClassifyArgs(argv: seq<JsValue>): (r: Result<CallShape, ArgError>)
    // the command is never classified, only passed on
    ensures r.Ok? ==> r.value.cmd == Arg(argv, 0)
    // args is the caller's second argument or null, and never a truthy non-array
    ensures r.Ok? ==> r.value.args == Arg(argv, 1) || r.value.args == Null
    ensures r.Ok? ==> !Truthy(r.value.args) || IsArray(r.value.args)
    // options are an object-typed value, or undefined in the (cmd, Array) form
    ensures r.Ok? ==> Typeof(r.value.options) == ObjectType || (|argv| == 2 && r.value.options == Undefined)
    // done is the no-op or one of the caller's function arguments
    ensures r.Ok? && r.value.done != EmptyFn ==> exists i :: 1 <= i < |argv| && argv[i] == Fn(r.value.done)
    // the error names the length of the call
    ensures r.Err? && |argv| == 2 ==> r.error == InvalidArgv
    ensures r.Err? && |argv| == 3 ==> r.error == InvalidArguments
    ensures r.Err? ==> |argv| != 1
  {
    var cmd, args, options, done := Arg(argv, 0), Arg(argv, 1), Arg(argv, 2), Arg(argv, 3);
    if |argv| == 1 then
      Ok(CallShape(cmd, args, NoOptions(), EmptyFn))
    else if |argv| == 2 then
      if IsArray(args) then Ok(CallShape(cmd, args, options, EmptyFn))
      else if Typeof(args) == FunctionType then Ok(CallShape(cmd, Null, NoOptions(), args.fn))
      else if Truthy(args) && Typeof(args) == ObjectType then Ok(CallShape(cmd, Null, args, EmptyFn))
      else Err(InvalidArgv)
    else if |argv| == 3 then
      if IsArray(args) then
        if Typeof(options) == FunctionType then Ok(CallShape(cmd, args, NoOptions(), options.fn))
        else Ok(CallShape(cmd, args, if Truthy(options) && Typeof(options) == ObjectType then options else NoOptions(), EmptyFn))
      else if Truthy(args) && Typeof(args) == ObjectType && Typeof(options) == FunctionType then
        Ok(CallShape(cmd, Null, args, options.fn))
      else Err(InvalidArguments)
    else
      if Truthy(args) && !IsArray(args) then Err(InvalidArgumentArgs)
      else if Truthy(options) && Typeof(options) != ObjectType then Err(InvalidArgumentOptions)
      else if Truthy(done) && Typeof(done) != FunctionType then Err(InvalidArgumentDone)
      else
        Ok(CallShape(cmd, args,
                     if Typeof(options) != ObjectType then NoOptions() else options,
                     if Typeof(done) == FunctionType then done.fn else EmptyFn))
  }

  /** What `_spawnArgs(argv, currentDefaults)` returns or throws. */
  function ResolveCall(argv: seq<JsValue>, currentDefaults: JsValue, defaults: map<string, JsValue>): Result<Quad, ArgError> {
    match ClassifyArgs(argv)
    case Err(e) => Err(e)
    case Ok(s) => Ok(Quad(s.cmd, s.args, OptionsFor(s.options, currentDefaults, defaults), s.done))
  }

  method SpawnArgs(argv: seq<JsValue>, currentDefaults: JsValue, defaults: map<string, JsValue>)
    returns (r: Result<Quad, ArgError>)
    ensures r == ResolveCall(argv, currentDefaults, defaults)
  {
    var shape := ClassifyArgs(argv);
    if shape.Err? {
      return Err(shape.error);
    }
    var s := shape.value;
    var opts := GetOptions(s.options, currentDefaults, defaults);
    r := Ok(Quad(s.cmd, s.args, opts, s.done));
  }

  /** The seven documented usages are accepted, with the expected quadruple. */
  lemma {:induction false} DocumentedUsages(cmd: JsValue, a: seq<JsValue>, o: map<string, JsValue>, f: FnRef)
    ensures ClassifyArgs([cmd]) == Ok(CallShape(cmd, Undefined, NoOptions(), EmptyFn))
    ensures ClassifyArgs([cmd, Arr(a)]) == Ok(CallShape(cmd, Arr(a), Undefined, EmptyFn))
    ensures ClassifyArgs([cmd, Obj(o)]) == Ok(CallShape(cmd, Null, Obj(o), EmptyFn))
    ensures ClassifyArgs([cmd, Fn(f)]) == Ok(CallShape(cmd, Null, NoOptions(), f))
    ensures ClassifyArgs([cmd, Arr(a), Obj(o)]) == Ok(CallShape(cmd, Arr(a), Obj(o), EmptyFn))
    ensures ClassifyArgs([cmd, Arr(a), Fn(f)]) == Ok(CallShape(cmd, Arr(a), NoOptions(), f))
    ensures ClassifyArgs([cmd, Arr(a), Obj(o), Fn(f)]) == Ok(CallShape(cmd, Arr(a), Obj(o), f))
  {
  }

  /** Two arguments: accepted exactly when the second is an array, a
      function or a truthy object; null, undefined, booleans, numbers and
      strings throw. */
  lemma {:induction false} TwoArguments(cmd: JsValue, second: JsValue)
    ensures ClassifyArgs([cmd, second]).Ok? <==> IsObject(second)
  {
  }

  /** Three arguments: an array second argument never throws, whatever the
      third is; otherwise only (object, function) is accepted. */
  lemma {:induction false} ThreeArguments(cmd: JsValue, second: JsValue, third: JsValue)
    ensures IsArray(second) ==> ClassifyArgs([cmd, second, third]).Ok?
    ensures IsArray(second) && !third.Fn? ==>
      ClassifyArgs([cmd, second, third]).value.options == (if IsObject(third) then third else NoOptions())
    ensures IsArray(second) ==>
      && ClassifyArgs([cmd, second, third]).value.args == second
      && ClassifyArgs([cmd, second, third]).value.done == (if third.Fn? then third.fn else EmptyFn)
    ensures !IsArray(second) ==>
      (ClassifyArgs([cmd, second, third]).Ok? <==> IsObject(second) && !second.Fn? && third.Fn?)
    ensures !IsArray(second) && ClassifyArgs([cmd, second, third]).Ok? ==>
      ClassifyArgs([cmd, second, third]).value == CallShape(cmd, Null, second, third.fn)
  {
  }

  /** Zero or four and more arguments: each position is checked on its own,
      falsy values stand for "absent". */
  lemma {:induction false} OtherArities(argv: seq<JsValue>)
    requires |argv| == 0 || |argv| >= 4
    ensures ClassifyArgs(argv).Ok? <==>
      && (!Truthy(Arg(argv, 1)) || IsArray(Arg(argv, 1)))
      && (!Truthy(Arg(argv, 2)) || Typeof(Arg(argv, 2)) == ObjectType)
      && (!Truthy(Arg(argv, 3)) || Arg(argv, 3).Fn?)
    ensures ClassifyArgs(argv).Ok? ==> ClassifyArgs(argv).value.args == Arg(argv, 1)
    ensures ClassifyArgs(argv).Ok? && Typeof(Arg(argv, 2)) != ObjectType ==>
      ClassifyArgs(argv).value.options == NoOptions()
    ensures ClassifyArgs(argv).Ok? && Typeof(Arg(argv, 2)) == ObjectType ==>
      ClassifyArgs(argv).value.options == Arg(argv, 2)
    ensures ClassifyArgs(argv).Ok? ==>
      ClassifyArgs(argv).value.done == if Arg(argv, 3).Fn? then Arg(argv, 3).fn else EmptyFn
    // the checks run in order; the first that fails names the error
    ensures Truthy(Arg(argv, 1)) && !IsArray(Arg(argv, 1)) ==>
      ClassifyArgs(argv) == Err(InvalidArgumentArgs)
    ensures ((!Truthy(Arg(argv, 1)) || IsArray(Arg(argv, 1)))
             && Truthy(Arg(argv, 2)) && Typeof(Arg(argv, 2)) != ObjectType) ==>
      ClassifyArgs(argv) == Err(InvalidArgumentOptions)
    ensures ((!Truthy(Arg(argv, 1)) || IsArray(Arg(argv, 1)))
             && (!Truthy(Arg(argv, 2)) || Typeof(Arg(argv, 2)) == ObjectType)
             && Truthy(Arg(argv, 3)) && !Arg(argv, 3).Fn?) ==>
      ClassifyArgs(argv) == Err(InvalidArgumentDone)
  {
  }
}
