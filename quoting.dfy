/** Display quoting of arguments and the announcement text handed to the
    `prompt` hook before a command is launched. */
module Quoting {
  import opened Results
  import opened Js

  /** A character matched by the regular expression class `\s`: the
      ECMAScript WhiteSpace and LineTerminator code points. */
  predicate IsJsWhitespace(c: char) {
    var n := c as int;
    n == 0x09 || n == 0x0A || n == 0x0B || n == 0x0C || n == 0x0D || n == 0x20
    || n == 0xA0 || n == 0x1680 || (0x2000 <= n <= 0x200A) || n == 0x2028
    || n == 0x2029 || n == 0x202F || n == 0x205F || n == 0x3000 || n == 0xFEFF
  }

  /** `/\s/.test(s)` */
  predicate HasWhitespace(s: string) {
    exists i :: 0 <= i < |s| && IsJsWhitespace(s[i])
  }

  /** `s.replace(/"/g, '\\')`: every double quote becomes one backslash. */
  function ReplaceQuotes(s: string): (r: string)
    ensures |r| == |s|
    ensures forall i :: 0 <= i < |s| ==> r[i] == (if s[i] == '"' then '\\' else s[i])
  {
    if s == [] then [] else (if s[0] == '"' then "\\" else [s[0]]) + ReplaceQuotes(s[1..])
  }

  /** `quoteArg`: an argument holding whitespace is wrapped in double quotes,
      and each double quote inside it is replaced (not escaped) by a backslash;
      any other argument is returned unchanged. */
  function QuoteArg(arg: string): (r: string)
    ensures !HasWhitespace(arg) ==> r == arg
    ensures HasWhitespace(arg) ==>
      && |r| == |arg| + 2 && r[0] == '"' && r[|r| - 1] == '"'
      && (forall i :: 0 <= i < |arg| ==> r[i + 1] == (if arg[i] == '"' then '\\' else arg[i]))
      && (forall i :: 0 < i < |r| - 1 ==> r[i] != '"')
  {
    if HasWhitespace(arg) then "\"" + ReplaceQuotes(arg) + "\"" else arg
  }

  lemma {:induction false} QuoteArgIdempotentOnPlain(arg: string)
    requires !HasWhitespace(arg)
    ensures QuoteArg(QuoteArg(arg)) == QuoteArg(arg) == arg
  {
  }

  /** Quoting keeps every character that is not a double quote in place, so
      an argument has whitespace exactly when its display form has. */
  lemma {:induction false} QuoteArgKeepsWhitespace(arg: string)
    ensures HasWhitespace(QuoteArg(arg)) <==> HasWhitespace(arg)
  {
    var r := QuoteArg(arg);
    if HasWhitespace(arg) {
      var i :| 0 <= i < |arg| && IsJsWhitespace(arg[i]);
      assert r[i + 1] == arg[i];
    }
    if HasWhitespace(r) && r != arg {
      var j :| 0 <= j < |r| && IsJsWhitespace(r[j]);
      assert 0 < j < |r| - 1;
      assert r[j] == (if arg[j - 1] == '"' then '\\' else arg[j - 1]);
      assert IsJsWhitespace(arg[j - 1]);
    }
  }

  lemma {:induction false} ReplaceQuotesAppend(a: string, b: string)
    ensures ReplaceQuotes(a + b) == ReplaceQuotes(a) + ReplaceQuotes(b)
  {
    var l, r := ReplaceQuotes(a + b), ReplaceQuotes(a) + ReplaceQuotes(b);
    assert |l| == |r|;
    forall i | 0 <= i < |l| ensures l[i] == r[i] {
      if i < |a| {
        assert (a + b)[i] == a[i];
      } else {
        assert (a + b)[i] == b[i - |a|];
      }
    }
  }

  /** Quoting is not idempotent on arguments with whitespace: quoting the
      display form again turns its outer quotes into backslashes. */
  lemma {:induction false} QuoteArgTwice(arg: string)
    requires HasWhitespace(arg)
    ensures QuoteArg(QuoteArg(arg)) == "\"\\" + ReplaceQuotes(arg) + "\\\""
  {
    var x := ReplaceQuotes(arg);
    var once := "\"" + x + "\"";
    assert QuoteArg(arg) == once;
    QuoteArgKeepsWhitespace(arg);
    assert HasWhitespace(once);
    var want := "\\" + x + "\\";
    ReplaceQuotesOfQuoted(x);
    assert QuoteArg(once) == "\"" + want + "\"";
    Rewrap(x);
  }

  lemma Rewrap(x: string)
    ensures "\"" + ("\\" + x + "\\") + "\"" == "\"\\" + x + "\\\""
  {
  }

  lemma {:induction false} ReplaceQuotesOfQuoted(x: string)
    requires forall i :: 0 <= i < |x| ==> x[i] != '"'
    ensures ReplaceQuotes("\"" + x + "\"") == "\\" + x + "\\"
  {
    var once := "\"" + x + "\"";
    var r := ReplaceQuotes(once);
    var want := "\\" + x + "\\";
    forall i | 0 <= i < |r| ensures r[i] == want[i] {
      if 0 < i < |r| - 1 {
        assert once[i] == x[i - 1];
      }
    }
  }

  /** `parts.join(sep)` */
  function Join(parts: seq<string>, sep: string): string
    decreases |parts|
  {
    if |parts| == 0 then ""
    else if |parts| == 1 then parts[0]
    else parts[0] + sep + Join(parts[1..], sep)
  }

  /** `args.map(quoteArg)` */
  function QuoteAll(args: seq<string>): (r: seq<string>)
    ensures |r| == |args| && forall i :: 0 <= i < |args| ==> r[i] == QuoteArg(args[i])
  {
    seq(|args|, i requires 0 <= i < |args| => QuoteArg(args[i]))
  }

  /** The text announced for a launch with an argument vector:
      `cmd + ' ' + args.map(quoteArg).join(' ')`. */
  function Announcement(cmd: string, args: seq<string>): string {
    cmd + " " + Join(QuoteAll(args), " ")
  }

  /** The text `_spawn` passes as first argument to `options.prompt`, or
      `None` when the hook is not called. `args` is `Some` exactly when the
      launch uses an argument vector (`Array.isArray(args)`). */
  function PromptText(cmd: string, args: Option<seq<string>>, options: map<string, JsValue>): (r: Option<string>)
    ensures r.Some? <==> Truthy(Get(options, "prompt"))
    ensures r.Some? ==> cmd <= r.value
    ensures r.Some? && args.None? ==> r.value == cmd
    ensures r.Some? && args.Some? ==> r.value == Announcement(cmd, args.value)
  {
    if !Truthy(Get(options, "prompt")) then None
    else if args.Some? then Some(Announcement(cmd, args.value))
    else Some(cmd)
  }

  lemma {:induction false} AnnouncementOfPlainArgs(cmd: string, args: seq<string>)
    requires forall i :: 0 <= i < |args| ==> !HasWhitespace(args[i])
    ensures Announcement(cmd, args) == cmd + " " + Join(args, " ")
  {
    assert QuoteAll(args) == args;
  }

  function CountQuotes(s: string): nat
    decreases |s|
  {
    if s == [] then 0 else (if s[0] == '"' then 1 else 0) + CountQuotes(s[1..])
  }

  lemma {:induction false} CountQuotesAppend(a: string, b: string)
    ensures CountQuotes(a + b) == CountQuotes(a) + CountQuotes(b)
    decreases |a|
  {
    if a == [] {
      assert a + b == b;
    } else {
      assert (a + b)[1..] == a[1..] + b;
      CountQuotesAppend(a[1..], b);
    }
  }

  lemma {:induction false} CountQuotesReplaced(s: string)
    ensures CountQuotes(ReplaceQuotes(s)) == 0
    decreases |s|
  {
    if s != [] {
      var head := if s[0] == '"' then "\\" else [s[0]];
      assert ReplaceQuotes(s) == head + ReplaceQuotes(s[1..]);
      CountQuotesAppend(head, ReplaceQuotes(s[1..]));
      CountQuotesReplaced(s[1..]);
    }
  }

  /** The double quotes a displayed argument contributes. */
  function QuotesShown(args: seq<string>): nat
    decreases |args|
  {
    if args == [] then 0
    else (if HasWhitespace(args[0]) then 2 else CountQuotes(args[0])) + QuotesShown(args[1..])
  }

  lemma {:induction false} CountQuotesOfQuoteArg(arg: string)
    ensures CountQuotes(QuoteArg(arg)) == if HasWhitespace(arg) then 2 else CountQuotes(arg)
  {
    if HasWhitespace(arg) {
      CountQuotesAppend("\"" + ReplaceQuotes(arg), "\"");
      CountQuotesAppend("\"", ReplaceQuotes(arg));
      CountQuotesReplaced(arg);
    }
  }

  lemma {:induction false} CountQuotesOfJoin(args: seq<string>)
    ensures CountQuotes(Join(QuoteAll(args), " ")) == QuotesShown(args)
    decreases |args|
  {
    if |args| == 1 {
      CountQuotesOfQuoteArg(args[0]);
    } else if |args| > 1 {
      assert QuoteAll(args)[1..] == QuoteAll(args[1..]);
      var head := QuoteArg(args[0]);
      CountQuotesAppend(head + " ", Join(QuoteAll(args[1..]), " "));
      CountQuotesAppend(head, " ");
      CountQuotesOfQuoteArg(args[0]);
      CountQuotesOfJoin(args[1..]);
    }
  }

  /** In the announcement every argument with whitespace shows exactly its
      two wrapping quotes, and every other argument shows its own quotes. */
  lemma {:induction false} AnnouncementQuotes(cmd: string, args: seq<string>)
    ensures CountQuotes(Announcement(cmd, args)) == CountQuotes(cmd) + QuotesShown(args)
  {
    CountQuotesAppend(cmd + " ", Join(QuoteAll(args), " "));
    CountQuotesAppend(cmd, " ");
    CountQuotesOfJoin(args);
  }
}
