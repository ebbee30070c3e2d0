/** Option layering: the shallow path of the jQuery-style `extend` and
    `getOptions`, which layers the library defaults, the orchestration
    defaults and the caller's options into a fresh object. */
module Options {
  import opened Results
  import opened Js

  /** Whether the source `src` gives `name` a value other than undefined
      (what `extend` copies). */
  predicate DefinedIn(src: JsValue, name: string) {
    name in Props(src) && Props(src)[name] != Undefined
  }

  /** The properties of a source that `extend` copies: those whose value is
      not undefined. */
  function Defined(props: map<string, JsValue>): map<string, JsValue> {
    map k | k in props && props[k] != Undefined :: props[k]
  }

  /** One pass of `extend`'s outer loop: null and undefined sources are
      skipped, every other source's defined properties overwrite `acc`. */
  function Layer(acc: map<string, JsValue>, src: JsValue): map<string, JsValue> {
    if src == Null || src == Undefined then acc else acc + Defined(Props(src))
  }

  /** All passes of the outer loop, left to right. */
  function LayerAll(acc: map<string, JsValue>, sources: seq<JsValue>): map<string, JsValue>
    decreases |sources|
  {
    if sources == [] then acc else LayerAll(Layer(acc, sources[0]), sources[1..])
  }

  /** Reference definition of "later sources win": the value given to
      `name` by the last source that defines it. */
  function LastDefined(sources: seq<JsValue>, name: string): Option<JsValue>
    decreases |sources|
  {
    if sources == [] then None
    else match LastDefined(sources[1..], name)
      case Some(v) => Some(v)
      case None => if DefinedIn(sources[0], name) then Some(Props(sources[0])[name]) else None
  }

  /** `extend({}, s1, s2, ...)` with a non-boolean first argument. The
      target is a fresh object, so the `target === copy` guard never fires. */
  method Extend(sources: seq<JsValue>) returns (target: map<string, JsValue>)
    ensures target == LayerAll(map[], sources)
  {
    target := map[];
    for i := 0 to |sources|
      invariant LayerAll(target, sources[i..]) == LayerAll(map[], sources)
    {
      var options := sources[i];
      assert sources[i..][1..] == sources[i + 1..];
      if options != Null && options != Undefined {
        target := CopyProps(target, Props(options));
      }
    }
    assert sources[|sources|..] == [];
  }

  /** The inner `for (name in options)` loop of `extend`. */
  method CopyProps(target0: map<string, JsValue>, props: map<string, JsValue>)
    returns (target: map<string, JsValue>)
    ensures target == target0 + Defined(props)
  {
    target := target0;
    var names := props.Keys;
    while names != {}
      invariant names <= props.Keys
      invariant target == target0 + Defined(props - names)
      decreases names
    {
      var name :| name in names;
      var copy := props[name];
      DefinedGrows(props, names, name);
      if copy != Undefined {
        target := target[name := copy];
      }
      names := names - {name};
    }
    assert props - {} == props;
  }

  lemma DefinedGrows(props: map<string, JsValue>, names: set<string>, name: string)
    requires name in names && names <= props.Keys
    ensures Defined(props - (names - {name})) ==
      if props[name] != Undefined then Defined(props - names)[name := props[name]] else Defined(props - names)
  {
  }

  /** The prompt fix-up of `getOptions`: a truthy prompt that is not a
      function is reset to the library default. */
  function FixPrompt(opts: map<string, JsValue>, defaults: map<string, JsValue>): map<string, JsValue> {
    var p := Get(opts, "prompt");
    if Truthy(p) && Typeof(p) != FunctionType then opts["prompt" := Get(defaults, "prompt")] else opts
  }

  /** What `getOptions(options, currentDefaults)` returns, given the
      process-wide `defaults` object. */
  function OptionsFor(options: JsValue, currentDefaults: JsValue, defaults: map<string, JsValue>): map<string, JsValue> {
    FixPrompt(LayerAll(map[], [Obj(defaults), currentDefaults, options]), defaults)
  }

  method GetOptions(options: JsValue, currentDefaults: JsValue, defaults: map<string, JsValue>)
    returns (opts: map<string, JsValue>)
    ensures opts == OptionsFor(options, currentDefaults, defaults)
  {
    opts := Extend([Obj(defaults), currentDefaults, options]);
    var p := Get(opts, "prompt");
    if Truthy(p) && Typeof(p) != FunctionType {
      opts := opts["prompt" := Get(defaults, "prompt")];
    }
  }

  /** Layering agrees with the reference: a name gets the value of the last
      source defining it, and keeps its old value when no source does. */
  lemma {:induction false} LayerAllLaterWins(acc: map<string, JsValue>, sources: seq<JsValue>, name: string)
    ensures name in LayerAll(acc, sources) <==> LastDefined(sources, name).Some? || name in acc
    ensures Get(LayerAll(acc, sources), name) ==
      match LastDefined(sources, name) case Some(v) => v case None => Get(acc, name)
    decreases |sources|
  {
    if sources != [] {
      LayerAllLaterWins(Layer(acc, sources[0]), sources[1..], name);
    }
  }

  /** Undefined values are never copied. */
  lemma {:induction false} LayerAllCopiesNoUndefined(acc: map<string, JsValue>, sources: seq<JsValue>)
    requires forall k :: k in acc ==> acc[k] != Undefined
    ensures forall k :: k in LayerAll(acc, sources) ==> LayerAll(acc, sources)[k] != Undefined
    decreases |sources|
  {
    if sources != [] {
      LayerAllCopiesNoUndefined(Layer(acc, sources[0]), sources[1..]);
    }
  }

  /** `getOptions` precedence: the caller's options beat the orchestration
      defaults, which beat the library defaults; undefined values are
      transparent. The prompt is covered by OptionsPrompt. */
  lemma {:induction false} OptionsPrecedence(options: JsValue, currentDefaults: JsValue,
                                             defaults: map<string, JsValue>, name: string)
    requires name != "prompt"
    ensures name in OptionsFor(options, currentDefaults, defaults) <==>
      DefinedIn(options, name) || DefinedIn(currentDefaults, name) || DefinedIn(Obj(defaults), name)
    ensures Get(OptionsFor(options, currentDefaults, defaults), name) ==
      if DefinedIn(options, name) then Props(options)[name]
      else if DefinedIn(currentDefaults, name) then Props(currentDefaults)[name]
      else if DefinedIn(Obj(defaults), name) then defaults[name]
      else Undefined
  {
    var sources := [Obj(defaults), currentDefaults, options];
    var layered := LayerAll(map[], sources);
    LayerAllLaterWins(map[], sources, name);
    LastOfThree(Obj(defaults), currentDefaults, options, name);
    assert OptionsFor(options, currentDefaults, defaults) == FixPrompt(layered, defaults);
    assert name in FixPrompt(layered, defaults) <==> name in layered;
    assert Get(FixPrompt(layered, defaults), name) == Get(layered, name);
  }

  lemma {:induction false} LastOfThree(a: JsValue, b: JsValue, c: JsValue, name: string)
    ensures LastDefined([a, b, c], name) ==
      if DefinedIn(c, name) then Some(Props(c)[name])
      else if DefinedIn(b, name) then Some(Props(b)[name])
      else if DefinedIn(a, name) then Some(Props(a)[name])
      else None
  {
    assert [c][1..] == [];
    assert LastDefined([c], name) == if DefinedIn(c, name) then Some(Props(c)[name]) else None;
    assert [b, c][1..] == [c];
    assert [a, b, c][1..] == [b, c];
  }

  /** After `getOptions` the prompt is the layered prompt (caller, then
      orchestration defaults, then library default) when that is falsy or a
      function, and exactly the library default otherwise; so it is falsy, a
      function, or the library default; and the only undefined value the
      result can hold is a missing library default prompt. */
  lemma {:induction false} OptionsPrompt(options: JsValue, currentDefaults: JsValue, defaults: map<string, JsValue>)
    ensures var layered :=
        if DefinedIn(options, "prompt") then Props(options)["prompt"]
        else if DefinedIn(currentDefaults, "prompt") then Props(currentDefaults)["prompt"]
        else if DefinedIn(Obj(defaults), "prompt") then defaults["prompt"]
        else Undefined;
      Get(OptionsFor(options, currentDefaults, defaults), "prompt") ==
        if Truthy(layered) && !layered.Fn? then Get(defaults, "prompt") else layered
    ensures var p := Get(OptionsFor(options, currentDefaults, defaults), "prompt");
      !Truthy(p) || p.Fn? || p == Get(defaults, "prompt")
    ensures var r := OptionsFor(options, currentDefaults, defaults);
      forall k :: k in r && r[k] == Undefined ==> k == "prompt" && Get(defaults, "prompt") == Undefined
  {
    var sources := [Obj(defaults), currentDefaults, options];
    LayerAllCopiesNoUndefined(map[], sources);
    FixPromptUndefined(LayerAll(map[], sources), defaults);
    LayeredValue(options, currentDefaults, defaults, "prompt");
  }

  /** The prompt fix-up writes no undefined value other than a missing
      library default prompt. */
  lemma FixPromptUndefined(opts: map<string, JsValue>, defaults: map<string, JsValue>)
    requires forall k :: k in opts ==> opts[k] != Undefined
    ensures var r := FixPrompt(opts, defaults);
      forall k :: k in r && r[k] == Undefined ==> k == "prompt" && Get(defaults, "prompt") == Undefined
  {
  }

  /** The value the three-source layering of `getOptions` gives a name. */
  lemma {:induction false} LayeredValue(options: JsValue, currentDefaults: JsValue,
                                        defaults: map<string, JsValue>, name: string)
    ensures Get(LayerAll(map[], [Obj(defaults), currentDefaults, options]), name) ==
      if DefinedIn(options, name) then Props(options)[name]
      else if DefinedIn(currentDefaults, name) then Props(currentDefaults)[name]
      else if DefinedIn(Obj(defaults), name) then defaults[name]
      else Undefined
  {
    LayerAllLaterWins(map[], [Obj(defaults), currentDefaults, options], name);
    LastOfThree(Obj(defaults), currentDefaults, options, name);
  }
}
