/** The argument pipeline of util/repl.py. A line is split on whitespace; `merge_args` glues
    together arguments separated by an escaped space, `split_args` moves backticks into
    arguments of their own, `expand_vars` replaces `$name` by the variable's value, and
    `do_sub_repl_if_needed` replaces each backtick-delimited command by what evaluating it
    returns. Each loop of the source is a method proved against a function that states its
    result. */
module ReplArgs {
  import opened Outcomes
  import opened PyStrings

  function Somes(args: seq<string>): (r: seq<Option<string>>)
    ensures |r| == |args| && forall i :: 0 <= i < |args| ==> r[i] == Some(args[i])
  {
    seq(|args|, i requires 0 <= i < |args| => Some(args[i]))
  }

  predicate EndsWithBackslash(s: string) {
    s != [] && s[|s| - 1] == '\\'
  }

  // ---------------------------------------------------------------------------
  // merge_args
  // ---------------------------------------------------------------------------

  /** The rest of `merge_args` from a point where `pending` is the argument being collected
      (`skip > 0`) and `acc` the arguments already produced. */
  function MergeFrom(args: seq<Option<string>>, pending: Option<string>, acc: seq<string>): Result<seq<string>>
    decreases |args|
  {
    if args == [] then Ok(if pending.Some? then acc + [pending.value] else acc)
    else match args[0]
      case None => Ok([])
      case Some(arg) =>
        if arg == [] then Raise(IndexError)
        else
          var piece := if EndsWithBackslash(arg) then arg[..|arg| - 1] else arg;
          var collect := if pending.Some? then pending.value + " " + piece else piece;
          if EndsWithBackslash(arg) then MergeFrom(args[1..], Some(collect), acc)
          else MergeFrom(args[1..], None, acc + [collect])
  }

  /** `merge_args(args)`: `arg[-1]` raises IndexError on an empty argument, and a None
      argument ends the merge with []. */
  function Merged(args: seq<Option<string>>): Result<seq<string>> {
    MergeFrom(args, None, [])
  }

  method MergeArgs(args: seq<Option<string>>) returns (r: Result<seq<string>>)
    ensures r == Merged(args)
  {
    var newArgs: seq<string> := [];
    var skip: nat := 0;
    var collect: string := "";
    var i := 0;
    while i < |args|
      invariant 0 <= i <= |args| && skip <= 1
      invariant Merged(args) == MergeFrom(args[i..], if skip > 0 then Some(collect) else None, newArgs)
    {
      assert args[i..][1..] == args[i + 1..];
      if args[i].None? {
        return Ok([]);
      }
      var arg := args[i].value;
      if |arg| == 0 {
        return Raise(IndexError);
      }
      if skip > 0 {
        skip := skip - 1;
        if arg[|arg| - 1] != '\\' {
          collect := collect + " " + arg;
        } else {
          skip := skip + 1;
          collect := collect + " " + arg[..|arg| - 1];
          i := i + 1;
          continue;
        }
      } else {
        collect := arg;
      }
      if arg[|arg| - 1] == '\\' {
        skip := skip + 1;
        collect := arg[..|arg| - 1];
        i := i + 1;
        continue;
      }
      newArgs := newArgs + [collect];
      i := i + 1;
    }
    if skip > 0 {
      newArgs := newArgs + [collect];
    }
    r := Ok(newArgs);
  }

  /** Arguments that do not end in a backslash pass through unchanged. */
  lemma {:induction false} MergePlain(args: seq<string>, acc: seq<string>)
    requires forall i :: 0 <= i < |args| ==> args[i] != [] && !EndsWithBackslash(args[i])
    ensures MergeFrom(Somes(args), None, acc) == Ok(acc + args)
  {
    if args == [] {
      assert acc + args == acc;
    } else {
      assert Somes(args)[1..] == Somes(args[1..]);
      MergePlain(args[1..], acc + [args[0]]);
      assert acc + [args[0]] + args[1..] == acc + args;
    }
  }

  /** An argument ending in a backslash is joined to the next one by a single space, and the
      backslash is dropped. */
  lemma MergeJoins(a: string, b: string, rest: seq<Option<string>>, acc: seq<string>)
    requires b != [] && !EndsWithBackslash(b)
    ensures MergeFrom([Some(a + "\\"), Some(b)] + rest, None, acc) == MergeFrom(rest, None, acc + [a + " " + b])
  {
    var args := [Some(a + "\\"), Some(b)] + rest;
    assert (a + "\\")[..|a + "\\"| - 1] == a;
    assert args[1..] == [Some(b)] + rest;
    assert args[1..][1..] == rest;
  }

  /** A None argument met before any empty one makes the result []. */
  lemma {:induction false} MergeNone(pre: seq<string>, post: seq<Option<string>>, pending: Option<string>, acc: seq<string>)
    requires forall i :: 0 <= i < |pre| ==> pre[i] != []
    ensures MergeFrom(Somes(pre) + [None] + post, pending, acc) == Ok([])
  {
    var args := Somes(pre) + [None] + post;
    if pre != [] {
      assert args[0] == Some(pre[0]);
      assert args[1..] == Somes(pre[1..]) + [None] + post;
      var arg := pre[0];
      var piece := if EndsWithBackslash(arg) then arg[..|arg| - 1] else arg;
      var collect := if pending.Some? then pending.value + " " + piece else piece;
      if EndsWithBackslash(arg) {
        MergeNone(pre[1..], post, Some(collect), acc);
      } else {
        MergeNone(pre[1..], post, None, acc + [collect]);
      }
    } else {
      assert args[0] == None;
    }
  }

  // ---------------------------------------------------------------------------
  // quote, and the way it is undone
  // ---------------------------------------------------------------------------

  /** `"\ ".join(arg.split())`. */
  function QuoteOne(arg: string): string {
    Join(Words(arg), "\\ ")
  }

  /** `quote(args)`. */
  function Quoted(args: seq<string>): (r: seq<string>)
    ensures |r| == |args| && forall i :: 0 <= i < |args| ==> r[i] == QuoteOne(args[i])
  {
    seq(|args|, i requires 0 <= i < |args| => QuoteOne(args[i]))
  }

  method Quote(args: seq<string>) returns (r: seq<string>)
    ensures r == Quoted(args)
  {
    r := [];
    var i := 0;
    while i < |args|
      invariant 0 <= i <= |args| && |r| == i
      invariant forall j :: 0 <= j < i ==> r[j] == QuoteOne(args[j])
    {
      var bits := Words(args[i]);
      r := r + [Join(bits, "\\ ")];
      i := i + 1;
    }
  }

  /** The words split out of a quoted argument: every word but the last keeps the backslash
      that escaped the space after it. */
  function Escaped(ws: seq<string>): (r: seq<string>)
    ensures |r| == |ws|
  {
    if |ws| <= 1 then ws else [ws[0] + "\\"] + Escaped(ws[1..])
  }

  /** All the words of a list, in order. */
  function Flatten(wss: seq<seq<string>>): seq<string> {
    if wss == [] then [] else wss[0] + Flatten(wss[1..])
  }

  predicate GoodWord(w: string) {
    w != [] && NoSpace(w) && NoChar(w, '\\')
  }

  /** Whitespace between two strings separates their words. */
  lemma {:induction false} WordsAppendSpace(x: string, y: string)
    ensures Words(x + " " + y) == Words(x) + Words(y)
    decreases |x|
  {
    var s := x + " " + y;
    if x == [] {
      assert s == [' '] + y && s[1..] == y;
    } else if IsSpace(x[0]) {
      assert s[0] == x[0] && s[1..] == x[1..] + " " + y;
      WordsAppendSpace(x[1..], y);
    } else {
      var k := TokenLen(x);
      TokenBeforeSpace(x, y);
      assert s[k..] == x[k..] + " " + y;
      WordsAppendSpace(x[k..], y);
    }
  }

  /** The first word of `x + " " + y` ends where the first word of x does. */
  lemma TokenBeforeSpace(x: string, y: string)
    requires x != [] && !IsSpace(x[0])
    ensures TokenLen(x + " " + y) == TokenLen(x)
    ensures (x + " " + y)[..TokenLen(x)] == x[..TokenLen(x)]
  {
    var k := TokenLen(x);
    assert NoSpace(x[..k]);
    if k < |x| {
      assert x + " " + y == x[..k] + (x[k..] + " " + y);
      TokenLenPrefix(x[..k], x[k..] + " " + y);
    } else {
      assert x[..k] == x;
      assert x + " " + y == x[..k] + (" " + y);
      TokenLenPrefix(x[..k], " " + y);
    }
  }

  /** Splitting a quoted word list on whitespace gives the escaped words. */
  lemma {:induction false} WordsOfQuoted(ws: seq<string>)
    requires forall i :: 0 <= i < |ws| ==> GoodWord(ws[i])
    ensures Words(Join(ws, "\\ ")) == Escaped(ws)
  {
    if ws == [] {
    } else if |ws| == 1 {
      WordsOfToken(ws[0]);
    } else {
      var w := ws[0] + "\\";
      assert NoSpace(w) by {
        forall i | 0 <= i < |w| ensures !IsSpace(w[i]) {
          if i < |ws[0]| { assert w[i] == ws[0][i]; }
        }
      }
      assert Join(ws, "\\ ") == w + " " + Join(ws[1..], "\\ ");
      WordsAppendSpace(w, Join(ws[1..], "\\ "));
      WordsOfToken(w);
      WordsOfQuoted(ws[1..]);
    }
  }

  /** Merging escaped words collects them back into one argument, separated by single
      spaces. */
  lemma {:induction false} MergeEscaped(ws: seq<string>, rest: seq<string>, pending: Option<string>, acc: seq<string>)
    requires ws != [] && forall i :: 0 <= i < |ws| ==> GoodWord(ws[i])
    ensures MergeFrom(Somes(Escaped(ws) + rest), pending, acc) ==
            MergeFrom(Somes(rest), None, acc + [if pending.Some? then pending.value + " " + Join(ws, " ") else Join(ws, " ")])
  {
    var args := Somes(Escaped(ws) + rest);
    assert args[1..] == Somes(Escaped(ws)[1..] + rest);
    var arg := Escaped(ws)[0];
    if |ws| == 1 {
      assert arg == ws[0] && !EndsWithBackslash(arg) by {
        assert ws[0][|ws[0]| - 1] != '\\';
      }
      assert Escaped(ws)[1..] + rest == rest;
    } else {
      assert arg == ws[0] + "\\" && EndsWithBackslash(arg);
      assert arg[..|arg| - 1] == ws[0];
      assert Escaped(ws)[1..] == Escaped(ws[1..]);
      var collect := if pending.Some? then pending.value + " " + ws[0] else ws[0];
      MergeEscaped(ws[1..], rest, Some(collect), acc);
      assert Join(ws, " ") == ws[0] + " " + Join(ws[1..], " ");
      assert collect + " " + Join(ws[1..], " ") ==
        (if pending.Some? then pending.value + " " + Join(ws, " ") else Join(ws, " "));
    }
  }

  /** No argument of the list is blank, and none holds a backslash. */
  predicate Requotable(args: seq<string>) {
    forall i :: 0 <= i < |args| ==> Words(args[i]) != [] && NoChar(args[i], '\\')
  }

  /** A word of a string has no backslash when the string has none. */
  lemma {:induction false} WordsNoChar(s: string, c: char)
    requires NoChar(s, c)
    ensures forall i :: 0 <= i < |Words(s)| ==> NoChar(Words(s)[i], c)
    decreases |s|
  {
    if s == [] {
    } else if IsSpace(s[0]) {
      WordsNoChar(s[1..], c);
    } else {
      var k := TokenLen(s);
      WordsNoChar(s[k..], c);
      assert Words(s) == [s[..k]] + Words(s[k..]);
    }
  }

  lemma GoodWords(a: string)
    requires NoChar(a, '\\')
    ensures forall i :: 0 <= i < |Words(a)| ==> GoodWord(Words(a)[i])
  {
    WordsShape(a);
    WordsNoChar(a, '\\');
  }

  /** The escaped words of each argument, in order. */
  function EscapedWords(args: seq<string>): (r: seq<seq<string>>)
    ensures |r| == |args| && forall i :: 0 <= i < |args| ==> r[i] == Escaped(Words(args[i]))
  {
    if args == [] then [] else [Escaped(Words(args[0]))] + EscapedWords(args[1..])
  }

  /** Each argument with its whitespace runs collapsed to single spaces. */
  function Collapsed(args: seq<string>): (r: seq<string>)
    ensures |r| == |args| && forall i :: 0 <= i < |args| ==> r[i] == Join(Words(args[i]), " ")
  {
    if args == [] then [] else [Join(Words(args[0]), " ")] + Collapsed(args[1..])
  }

  /** What the whitespace split of the joined, quoted arguments gives. */
  lemma {:induction false} WordsOfQuotedArgs(args: seq<string>)
    requires Requotable(args)
    ensures Words(Join(Quoted(args), " ")) == Flatten(EscapedWords(args))
  {
    var q := Quoted(args);
    if args != [] {
      GoodWords(args[0]);
      WordsOfQuoted(Words(args[0]));
      assert q[0] == QuoteOne(args[0]);
      assert Quoted(args[1..]) == q[1..];
      WordsOfQuotedArgs(args[1..]);
      var wss := EscapedWords(args);
      assert wss == [Escaped(Words(args[0]))] + EscapedWords(args[1..]);
      assert Flatten(wss) == Escaped(Words(args[0])) + Flatten(EscapedWords(args[1..]));
      if |args| == 1 {
        assert Join(q, " ") == q[0];
        assert Escaped(Words(args[0])) + [] == Escaped(Words(args[0]));
      } else {
        assert Join(q, " ") == q[0] + " " + Join(q[1..], " ");
        WordsAppendSpace(q[0], Join(q[1..], " "));
      }
    }
  }

  /** `merge_args` undoes `quote`: the whitespace split of the quoted arguments, merged,
      recovers every argument with its whitespace runs collapsed to single spaces. This is
      how the arguments of a substituted command reach the command. */
  lemma {:induction false} QuoteMergeRoundTrip(args: seq<string>)
    requires Requotable(args)
    ensures Merged(Somes(Words(Join(Quoted(args), " ")))) ==
            Ok(seq(|args|, i requires 0 <= i < |args| => Join(Words(args[i]), " ")))
  {
    WordsOfQuotedArgs(args);
    MergeFlatten(args, []);
    var out := seq(|args|, i requires 0 <= i < |args| => Join(Words(args[i]), " "));
    assert Collapsed(args) == out;
    assert [] + out == out;
  }

  lemma {:induction false} MergeFlatten(args: seq<string>, acc: seq<string>)
    requires Requotable(args)
    ensures MergeFrom(Somes(Flatten(EscapedWords(args))), None, acc) == Ok(acc + Collapsed(args))
  {
    if args == [] {
      assert acc + [] == acc;
    } else {
      GoodWords(args[0]);
      var rest := Flatten(EscapedWords(args[1..]));
      assert EscapedWords(args) == [Escaped(Words(args[0]))] + EscapedWords(args[1..]);
      assert Flatten(EscapedWords(args)) == Escaped(Words(args[0])) + rest;
      MergeEscaped(Words(args[0]), rest, None, acc);
      var first := Join(Words(args[0]), " ");
      MergeFlatten(args[1..], acc + [first]);
      assert Collapsed(args) == [first] + Collapsed(args[1..]);
      assert acc + [first] + Collapsed(args[1..]) == acc + Collapsed(args);
    }
  }

  // ---------------------------------------------------------------------------
  // split_args
  // ---------------------------------------------------------------------------

  /** What `split_args` makes of one argument. */
  function SplitArg(arg: string): seq<string> {
    var parts := SplitOn(arg, '`');
    if |parts| == 1 then [arg]
    else if |parts| == 2 then
      if parts[0] == "" then ["`", parts[1]]
      else if parts[1] == "" then [parts[0], "`"]
      else []
    else []
  }

  /** `split_args(args)`. */
  function SplitAll(args: seq<string>): seq<string> {
    if args == [] then [] else SplitArg(args[0]) + SplitAll(args[1..])
  }

  method SplitArgs(args: seq<string>) returns (r: seq<string>)
    ensures r == SplitAll(args)
  {
    r := [];
    var i := 0;
    while i < |args|
      invariant 0 <= i <= |args|
      invariant r == SplitAll(args[..i])
    {
      var arg := args[i];
      var before := r;
      var parts := SplitOn(arg, '`');
      if |parts| == 1 {
        r := r + [arg];
      } else if |parts| == 2 {
        if parts[0] == "" {
          r := r + ["`", parts[1]];
        } else if parts[1] == "" {
          r := r + [parts[0], "`"];
        }
      }
      assert r == before + SplitArg(arg);
      SplitAllOne(args[..i], arg);
      assert args[..i + 1] == args[..i] + [arg];
      i := i + 1;
    }
    assert args[..i] == args;
  }

  lemma SplitAllOne(a: seq<string>, x: string)
    ensures SplitAll(a + [x]) == SplitAll(a) + SplitArg(x)
  {
    SplitAllAppend(a, [x]);
    assert SplitAll([x]) == SplitArg(x) + SplitAll([]);
    assert SplitArg(x) + [] == SplitArg(x);
  }

  /** An argument without a backtick is kept; a backtick at the start or the end becomes an
      argument of its own; one in the middle, or two or more, drop the argument. */
  lemma SplitArgCases(a: string, b: string)
    requires NoChar(a, '`') && NoChar(b, '`')
    ensures SplitArg(a) == [a]
    ensures SplitArg("`" + b) == ["`", b]
    ensures a != "" ==> SplitArg(a + "`") == [a, "`"]
    ensures a != "" && b != "" ==> SplitArg(a + "`" + b) == []
  {
    SplitOnNone(a, '`');
    assert NoChar("", '`');
    SplitOnOne("", b, '`');
    assert "" + ['`'] + b == "`" + b;
    SplitOnOne(a, "", '`');
    assert a + ['`'] + "" == a + "`";
    SplitOnOne(a, b, '`');
  }

  lemma SplitArgMany(arg: string)
    requires Count(arg, '`') >= 2
    ensures SplitArg(arg) == []
  {
    SplitOnJoin(arg, '`');
  }

  /** Without backticks `split_args` changes nothing. */
  lemma {:induction false} SplitNoBackticks(args: seq<string>)
    requires forall i :: 0 <= i < |args| ==> NoChar(args[i], '`')
    ensures SplitAll(args) == args
  {
    if args != [] {
      SplitArgCases(args[0], "");
      SplitNoBackticks(args[1..]);
    }
  }

  /** A lone backtick splits into a backtick and an empty argument. */
  lemma LoneBacktick()
    ensures SplitArg("`") == ["`", ""]
  {
    SplitArgCases("", "");
    assert "`" + "" == "`";
  }

  lemma {:induction false} SplitAllAppend(a: seq<string>, b: seq<string>)
    ensures SplitAll(a + b) == SplitAll(a) + SplitAll(b)
  {
    if a == [] {
      assert a + b == b;
    } else {
      assert (a + b)[1..] == a[1..] + b;
      SplitAllAppend(a[1..], b);
    }
  }

  // ---------------------------------------------------------------------------
  // expand_vars
  // ---------------------------------------------------------------------------

  /** `env.get(name)`: the bound value, "" for a name never set. */
  function Lookup(bindings: map<string, string>, name: string): (r: string)
    ensures name in bindings ==> r == bindings[name]
    ensures name !in bindings ==> r == ""
  {
    if name in bindings then bindings[name] else ""
  }

  function ExpandOne(bindings: map<string, string>, arg: string): string
    requires arg != []
  {
    if arg[0] == '$' then Lookup(bindings, arg[1..]) else arg
  }

  /** `expand_vars(env, args)`: `arg[0]` raises IndexError on an empty argument. */
  function Expanded(bindings: map<string, string>, args: seq<string>): (r: Result<seq<string>>)
    ensures r.Ok? <==> forall i :: 0 <= i < |args| ==> args[i] != []
    ensures r.Raise? ==> r.exc == IndexError
    ensures r.Ok? ==> |r.value| == |args|
    ensures r.Ok? ==> forall i :: 0 <= i < |args| ==> args[i] != [] && r.value[i] == ExpandOne(bindings, args[i])
  {
    if args == [] then Ok([])
    else if args[0] == [] then Raise(IndexError)
    else match Expanded(bindings, args[1..])
      case Raise(e) => Raise(e)
      case Ok(rest) =>
        assert forall i :: 1 <= i < |args| ==> args[i] == args[1..][i - 1];
        Ok([ExpandOne(bindings, args[0])] + rest)
  }

  method ExpandVars(bindings: map<string, string>, args: seq<string>) returns (r: Result<seq<string>>)
    ensures r == Expanded(bindings, args)
  {
    var newArgs: seq<string> := [];
    var i := 0;
    while i < |args|
      invariant 0 <= i <= |args| && |newArgs| == i
      invariant forall j :: 0 <= j < i ==> args[j] != [] && newArgs[j] == ExpandOne(bindings, args[j])
    {
      var arg := args[i];
      if |arg| == 0 {
        assert Expanded(bindings, args).Raise?;
        return Raise(IndexError);
      }
      if arg[0] == '$' {
        arg := arg[1..];
        arg := Lookup(bindings, arg);
      }
      newArgs := newArgs + [arg];
      i := i + 1;
    }
    assert Expanded(bindings, args).value == newArgs;
    r := Ok(newArgs);
  }

  // ---------------------------------------------------------------------------
  // do_sub_repl_if_needed
  // ---------------------------------------------------------------------------

  const Unmatched: Exc := ReplSyntaxError("Unmatched \"`\"")

  /** The line a finished substitution evaluates: `" ".join([sub_command] + quote(sub_args))`. */
  function SubLine(command: string, subArgs: seq<string>): string {
    Join([command] + Quoted(subArgs), " ")
  }

  /** The rest of `do_sub_repl_if_needed` from a point where `started` says a substitution is
      open, `command` and `subArgs` are what it has collected and `acc` is the output so
      far. `eval` is the nested REPL evaluating one line. */
  function SubFrom(args: seq<string>, started: bool, command: Option<string>, subArgs: seq<string>,
                   acc: seq<string>, eval: string -> Result<string>): Result<seq<string>>
    decreases |args|
  {
    if args == [] then (if started then Raise(Unmatched) else Ok(acc))
    else
      var arg := args[0];
      if arg == [] then
        if started then SubFrom(args[1..], started, command, subArgs + [arg], acc, eval)
        else SubFrom(args[1..], started, command, subArgs, acc + [arg], eval)
      else if arg == "`" then
        if !started then SubFrom(args[1..], true, None, [], acc, eval)
        // `" ".join([None] + ...)` raises TypeError when nothing followed the backtick.
        else if command.None? then Raise(TypeError)
        else match eval(SubLine(command.value, subArgs))
          case Raise(e) => Raise(e)
          case Ok(replacement) => SubFrom(args[1..], false, command, Quoted(subArgs), acc + [replacement], eval)
      else if started then
        if command.None? then SubFrom(args[1..], true, Some(arg), subArgs, acc, eval)
        else SubFrom(args[1..], true, command, subArgs + [arg], acc, eval)
      else SubFrom(args[1..], false, command, subArgs, acc + [arg], eval)
  }

  /** `do_sub_repl_if_needed(..., args)`. For None the source returns the string "" rather
      than a list; its callers unpack the result with `*`, where "" gives no arguments, so
      the model returns the empty list there. */
  function Substituted(args: Option<seq<string>>, eval: string -> Result<string>): Result<seq<string>> {
    if args.None? then Ok([]) else SubFrom(args.value, false, None, [], [], eval)
  }

  method DoSubReplIfNeeded(args: Option<seq<string>>, eval: string -> Result<string>) returns (r: Result<seq<string>>)
    ensures r == Substituted(args, eval)
  {
    if args.None? {
      return Ok([]);
    }
    var a := args.value;
    var newArgs: seq<string> := [];
    var subCommand: Option<string> := None;
    var subCommandArgs: seq<string> := [];
    var started := false;
    var i := 0;
    while i < |a|
      invariant 0 <= i <= |a|
      invariant Substituted(args, eval) == SubFrom(a[i..], started, subCommand, subCommandArgs, newArgs, eval)
    {
      assert a[i..][1..] == a[i + 1..];
      var arg := a[i];
      i := i + 1;
      if |arg| == 0 {
        if started {
          subCommandArgs := subCommandArgs + [arg];
        } else {
          newArgs := newArgs + [arg];
        }
        continue;
      }
      if arg == "`" {
        if !started {
          started := true;
          subCommand := None;
          subCommandArgs := [];
        } else {
          started := false;
          subCommandArgs := Quoted(subCommandArgs);
          if subCommand.None? {
            return Raise(TypeError);
          }
          var replacement := eval(Join([subCommand.value] + subCommandArgs, " "));
          if replacement.Raise? {
            return Raise(replacement.exc);
          }
          newArgs := newArgs + [replacement.value];
        }
        continue;
      }
      if started {
        if subCommand.None? {
          subCommand := Some(arg);
        } else {
          subCommandArgs := subCommandArgs + [arg];
        }
      } else {
        newArgs := newArgs + [arg];
      }
    }
    if started {
      return Raise(Unmatched);
    }
    r := Ok(newArgs);
  }

  /** With no backtick argument the arguments come out as they went in. */
  lemma {:induction false} SubNoBacktick(args: seq<string>, command: Option<string>, subArgs: seq<string>,
                                         acc: seq<string>, eval: string -> Result<string>)
    requires "`" !in args
    ensures SubFrom(args, false, command, subArgs, acc, eval) == Ok(acc + args)
  {
    if args == [] {
      assert acc + args == acc;
    } else {
      assert args[0] != "`" && "`" !in args[1..];
      SubNoBacktick(args[1..], command, subArgs, acc + [args[0]], eval);
      assert acc + [args[0]] + args[1..] == acc + args;
    }
  }

  /** Inside an open substitution with its command known, every argument up to the next
      backtick is collected. */
  lemma {:induction false} SubCollects(mid: seq<string>, post: seq<string>, command: string, subArgs: seq<string>,
                                       acc: seq<string>, eval: string -> Result<string>)
    requires "`" !in mid
    ensures SubFrom(mid + post, true, Some(command), subArgs, acc, eval) ==
            SubFrom(post, true, Some(command), subArgs + mid, acc, eval)
  {
    if mid == [] {
      assert mid + post == post && subArgs + mid == subArgs;
    } else {
      assert (mid + post)[0] == mid[0] && (mid + post)[1..] == mid[1..] + post;
      SubCollects(mid[1..], post, command, subArgs + [mid[0]], acc, eval);
      assert subArgs + [mid[0]] + mid[1..] == subArgs + mid;
    }
  }

  /** A backtick pair around a command and its arguments is replaced, in place, by the one
      result of evaluating that command line. */
  lemma SubPair(pre: seq<string>, command: string, mid: seq<string>, post: seq<string>,
                eval: string -> Result<string>)
    requires "`" !in pre && "`" !in mid && "`" !in post
    requires command != [] && command != "`"
    ensures eval(SubLine(command, mid)).Ok? ==>
      Substituted(Some(pre + ["`", command] + mid + ["`"] + post), eval) ==
      Ok(pre + [eval(SubLine(command, mid)).value] + post)
    ensures eval(SubLine(command, mid)).Raise? ==>
      Substituted(Some(pre + ["`", command] + mid + ["`"] + post), eval) == Raise(eval(SubLine(command, mid)).exc)
  {
    var tail := ["`", command] + mid + ["`"] + post;
    assert pre + ["`", command] + mid + ["`"] + post == pre + tail;
    SubPrefix(pre, tail, [], eval);
    assert [] + pre == pre;
    SubOpensPair(command, mid, post, pre, eval);
    var rep := eval(SubLine(command, mid));
    if rep.Ok? {
      SubNoBacktick(post, Some(command), Quoted(mid), pre + [rep.value], eval);
    }
  }

  /** The step of SubPair past the prefix. */
  lemma SubOpensPair(command: string, mid: seq<string>, post: seq<string>, acc: seq<string>,
                     eval: string -> Result<string>)
    requires "`" !in mid
    requires command != [] && command != "`"
    ensures eval(SubLine(command, mid)).Raise? ==>
      SubFrom(["`", command] + mid + ["`"] + post, false, None, [], acc, eval) == Raise(eval(SubLine(command, mid)).exc)
    ensures eval(SubLine(command, mid)).Ok? ==>
      SubFrom(["`", command] + mid + ["`"] + post, false, None, [], acc, eval) ==
      SubFrom(post, false, Some(command), Quoted(mid), acc + [eval(SubLine(command, mid)).value], eval)
  {
    var tail := ["`", command] + mid + ["`"] + post;
    assert tail[0] == "`" && tail[1..] == [command] + mid + ["`"] + post;
    var t2 := [command] + mid + ["`"] + post;
    assert SubFrom(tail, false, None, [], acc, eval) == SubFrom(t2, true, None, [], acc, eval);
    assert t2[0] == command && t2[1..] == mid + (["`"] + post);
    assert SubFrom(t2, true, None, [], acc, eval) == SubFrom(mid + (["`"] + post), true, Some(command), [], acc, eval);
    SubCollects(mid, ["`"] + post, command, [], acc, eval);
    assert [] + mid == mid;
    var t3 := ["`"] + post;
    assert t3[0] == "`" && t3[1..] == post;
  }

  /** Arguments before the first backtick are copied to the output. */
  lemma {:induction false} SubPrefix(pre: seq<string>, rest: seq<string>, acc: seq<string>, eval: string -> Result<string>)
    requires "`" !in pre
    ensures SubFrom(pre + rest, false, None, [], acc, eval) == SubFrom(rest, false, None, [], acc + pre, eval)
  {
    if pre == [] {
      assert pre + rest == rest && acc + pre == acc;
    } else {
      assert (pre + rest)[0] == pre[0] && (pre + rest)[1..] == pre[1..] + rest;
      SubPrefix(pre[1..], rest, acc + [pre[0]], eval);
      assert acc + [pre[0]] + pre[1..] == acc + pre;
    }
  }

  /** A backtick that is never closed raises the REPL's SyntaxError. */
  lemma SubUnmatched(pre: seq<string>, post: seq<string>, eval: string -> Result<string>)
    requires "`" !in pre && "`" !in post
    ensures Substituted(Some(pre + ["`"] + post), eval) == Raise(Unmatched)
  {
    SubPrefix(pre, ["`"] + post, [], eval);
    assert pre + ["`"] + post == pre + (["`"] + post);
    assert (["`"] + post)[0] == "`" && (["`"] + post)[1..] == post;
    SubOpenRuns(post, None, [], [] + pre, eval);
  }

  lemma {:induction false} SubOpenRuns(post: seq<string>, command: Option<string>, subArgs: seq<string>,
                                       acc: seq<string>, eval: string -> Result<string>)
    requires "`" !in post
    ensures SubFrom(post, true, command, subArgs, acc, eval) == Raise(Unmatched)
  {
    if post != [] {
      assert post[0] != "`" && "`" !in post[1..];
      var arg := post[0];
      if arg == [] {
        SubOpenRuns(post[1..], command, subArgs + [arg], acc, eval);
      } else if command.None? {
        SubOpenRuns(post[1..], Some(arg), subArgs, acc, eval);
      } else {
        SubOpenRuns(post[1..], command, subArgs + [arg], acc, eval);
      }
    }
  }

  /** Two backticks with nothing between them leave the command None, and joining it into a
      line raises TypeError. */
  lemma SubEmptyPair(pre: seq<string>, post: seq<string>, eval: string -> Result<string>)
    requires "`" !in pre
    ensures Substituted(Some(pre + ["`", "`"] + post), eval) == Raise(TypeError)
  {
    SubPrefix(pre, ["`", "`"] + post, [], eval);
    assert pre + ["`", "`"] + post == pre + (["`", "`"] + post);
    var t := ["`", "`"] + post;
    assert t[0] == "`" && t[1..] == ["`"] + post;
    assert (["`"] + post)[0] == "`";
  }
}
