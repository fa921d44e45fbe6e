/** The REPL of util/repl.py, one line at a time: its variable environment, the `slice` and
    `echo` builtins, the order in which a command name is looked up, and what a line turns
    into once its arguments have gone through the pipeline of ReplArgs. */
module Repl {
  import opened Outcomes
  import opened PyStrings
  import opened PyCore
  import opened ReplArgs

  // ---------------------------------------------------------------------------
  // REPL_env
  // ---------------------------------------------------------------------------

  /** `REPL_env`: a dictionary of variable bindings. */
  class Env {
    var bindings: map<string, string>

    constructor ()
      ensures bindings == map[]
    {
      bindings := map[];
    }

    /** `set(name, value)` binds `str(value)` and returns the value itself. */
    method Set(name: string, value: Value) returns (r: Value)
      modifies this
      ensures r == value && bindings == old(bindings)[name := PyStr(value)]
    {
      bindings := bindings[name := PyStr(value)];
      r := value;
    }

    /** `unset(name)` returns the old value; for an unbound name the KeyError is swallowed
        and `return val` raises UnboundLocalError. */
    method Unset(name: string) returns (r: Result<string>)
      modifies this
      ensures name in old(bindings) ==> r == Ok(old(bindings)[name]) && bindings == old(bindings) - {name}
      ensures name !in old(bindings) ==> r == Raise(UnboundLocalError) && bindings == old(bindings)
    {
      if name !in bindings {
        return Raise(UnboundLocalError);
      }
      var val := bindings[name];
      bindings := bindings - {name};
      r := Ok(val);
    }

    method Get(name: string) returns (r: string)
      ensures r == Lookup(bindings, name)
    {
      if name in bindings {
        return bindings[name];
      }
      return "";
    }
  }

  /** `get` after `set` reads `str(value)`, and no other name changes. */
  lemma GetAfterSet(b: map<string, string>, name: string, other: string, value: Value)
    ensures Lookup(b[name := PyStr(value)], name) == PyStr(value)
    ensures other != name ==> Lookup(b[name := PyStr(value)], other) == Lookup(b, other)
  {
  }

  /** After `unset` the name reads as "", and no other name changes. */
  lemma GetAfterUnset(b: map<string, string>, name: string, other: string)
    ensures Lookup(b - {name}, name) == ""
    ensures other != name ==> Lookup(b - {name}, other) == Lookup(b, other)
  {
  }

  // ---------------------------------------------------------------------------
  // _slice and echo
  // ---------------------------------------------------------------------------

  /** A slice bound as the REPL reads it: ":" is an open bound, anything else goes through
      `int(...)`. */
  function Bound(b: string): (r: Result<Option<int>>)
    ensures b == ":" ==> r == Ok(None)
    ensures b != ":" ==> (r.Ok? <==> ParseInt(b).Some?)
    ensures b != ":" && r.Ok? ==> r.value == ParseInt(b)
    ensures r.Raise? ==> r.exc == ValueError
  {
    if b == ":" then Ok(None)
    else match ParseInt(b)
      case None => Raise(ValueError)
      case Some(n) => Ok(Some(n))
  }

  /** `_slice(start, stop, string)`. The start is converted before the stop. */
  function Slice(start: string, stop: string, s: string): Result<string> {
    var a :- Bound(start);
    var b :- Bound(stop);
    Ok(PySlice(s, a, b))
  }

  /** ":" for both bounds gives the string back; numerals give Python's `s[a:b]`; a bound
      that is neither raises ValueError. */
  lemma SliceCases(s: string, a: int, b: int, bad: string)
    requires bad != ":" && ParseInt(bad).None?
    ensures Slice(":", ":", s) == Ok(s)
    ensures Slice(IntStr(a), IntStr(b), s) == Ok(PySlice(s, Some(a), Some(b)))
    ensures Slice(":", IntStr(b), s) == Ok(PySlice(s, None, Some(b)))
    ensures Slice(IntStr(a), ":", s) == Ok(PySlice(s, Some(a), None))
    ensures 0 <= a <= b <= |s| ==> Slice(IntStr(a), IntStr(b), s) == Ok(s[a..b])
    ensures Slice(bad, ":", s) == Raise(ValueError) && Slice(":", bad, s) == Raise(ValueError)
  {
    IntStrRoundTrip(a);
    IntStrRoundTrip(b);
    IntStrShape(a);
    IntStrShape(b);
    PySliceFacts(s, a, b, 0);
  }

  /** The REPL is shipped with `DEBUG = True`, so `echo` separates its arguments by ", ". */
  const Debug := true

  /** `echo(*args)`. */
  function Echo(args: seq<string>): string {
    if Debug then Join(args, ", ") else Join(args, " ")
  }

  lemma EchoFacts(args: seq<string>, a: string, b: string)
    ensures Echo([]) == "" && Echo([a]) == a && Echo([a, b]) == a + ", " + b
    ensures args != [] ==> |Echo(args)| == SumLengths(args) + 2 * (|args| - 1)
  {
    if args != [] {
      JoinLength(args, ", ");
    }
    assert [a, b][1..] == [b];
    assert Join([b], ", ") == b;
    assert Join([a, b], ", ") == a + ", " + Join([b], ", ");
  }

  // ---------------------------------------------------------------------------
  // Command lookup
  // ---------------------------------------------------------------------------

  /** The REPL's built-in commands. */
  const Builtins: set<string> := {"Stop-REPL", "help", "last", "echo", "set", "unset", "get",
                                  "sleep", "slice", "export", "import"}

  datatype Target = Callback(name: string) | Builtin(name: string) | Fallback

  /** Exchanges the roles of callbacks and builtins. */
  function Flip(t: Target): Target {
    match t
    case Callback(n) => Builtin(n)
    case Builtin(n) => Callback(n)
    case Fallback => Fallback
  }

  /** The lookup of `show_help` and of the REPL loop: callbacks first, then builtins, then the
      default function; a leading backslash is stripped and reverses the order. `fun[0]`
      raises IndexError on an empty name. */
  function Resolve(command: string, callbacks: set<string>, builtins: set<string>): Result<Target> {
    if command == [] then Raise(IndexError)
    else if command[0] == '\\' then
      var name := command[1..];
      Ok(if name in builtins then Builtin(name) else if name in callbacks then Callback(name) else Fallback)
    else
      Ok(if command in callbacks then Callback(command) else if command in builtins then Builtin(command) else Fallback)
  }

  /** External commands take precedence over builtins; with a backslash, builtins take
      precedence; a name known to neither falls back to the default. */
  lemma ResolvePrecedence(name: string, callbacks: set<string>, builtins: set<string>)
    requires name != [] && name[0] != '\\'
    ensures name in callbacks <==> Resolve(name, callbacks, builtins) == Ok(Callback(name))
    ensures name in builtins <==> Resolve("\\" + name, callbacks, builtins) == Ok(Builtin(name))
    ensures name !in callbacks && name !in builtins <==> Resolve(name, callbacks, builtins) == Ok(Fallback)
    ensures Resolve("\\" + name, callbacks, builtins).Ok?
  {
    assert ("\\" + name)[0] == '\\' && ("\\" + name)[1..] == name;
  }

  /** A leading backslash is the same lookup with the two tables exchanged. */
  lemma BackslashSwaps(name: string, callbacks: set<string>, builtins: set<string>)
    requires name != [] && name[0] != '\\'
    ensures Resolve("\\" + name, callbacks, builtins) == Ok(Flip(Resolve(name, builtins, callbacks).value))
  {
    assert ("\\" + name)[0] == '\\' && ("\\" + name)[1..] == name;
  }

  // ---------------------------------------------------------------------------
  // One line of the REPL
  // ---------------------------------------------------------------------------

  /** `line.split("%%", 1)[0]`: the line up to its first "%%". */
  function BeforeComment(s: string): (r: string)
    ensures |r| <= |s| && r == s[..|r|]
    ensures |r| < |s| ==> |r| + 2 <= |s| && s[|r|] == '%' && s[|r| + 1] == '%'
    ensures forall i :: 0 <= i < |r| ==> !(s[i] == '%' && i + 1 < |s| && s[i + 1] == '%')
  {
    if |s| < 2 then s
    else if s[0] == '%' && s[1] == '%' then ""
    else
      var rest := BeforeComment(s[1..]);
      assert forall i :: 1 <= i < |s| ==> s[i] == s[1..][i - 1];
      [s[0]] + rest
  }

  /** What the REPL does with a line. */
  datatype Action =
    | Skip                           // nothing to do
    | Stop                           // Stop-REPL ends the session
    | ShowError(message: string)     // the REPL's SyntaxError, printed
    | HelpAll                        // help without a command lists every command
    | HelpOn(target: Target)         // help for one command
    | ShowLast                       // last prints the previous result
    | Run(target: Target, args: seq<string>)

  /** One pass of the REPL loop over an already read line. The argument pipeline is
      `merge_args`, `split_args`, `expand_vars`, then `do_sub_repl_if_needed`, whose
      SyntaxError is printed and whose other exceptions escape; `eval` is the nested REPL a
      substitution runs. */
  function LineAction(bindings: map<string, string>, read: string, callbacks: set<string>,
                      eval: string -> Result<string>): Result<Action>
  {
    var comps := Words(read);
    if comps == [] then Ok(Skip)
    else if comps[0] == "Stop-REPL" then Ok(Stop)
    else
      var merged :- Merged(Somes(comps[1..]));
      var expanded :- Expanded(bindings, SplitAll(merged));
      var sub := Substituted(Some(expanded), eval);
      if sub.Raise? && sub.exc.ReplSyntaxError? then Ok(ShowError(sub.exc.message))
      else
        var args :- sub;
        if comps[0] == "help" then
          if args == [] then Ok(HelpAll)
          else
            var t :- Resolve(args[0], callbacks, Builtins);
            Ok(HelpOn(t))
        else if comps[0] == "last" then Ok(ShowLast)
        else
          var t :- Resolve(comps[0], callbacks, Builtins);
          Ok(Run(t, args))
  }

  /** A line typed at the prompt: everything from the first "%%" is a comment. */
  function TypedLine(bindings: map<string, string>, line: string, callbacks: set<string>,
                     eval: string -> Result<string>): Result<Action> {
    LineAction(bindings, BeforeComment(line), callbacks, eval)
  }

  lemma {:induction false} SplitHasEmpty(args: seq<string>)
    requires "`" in args
    ensures "" in SplitAll(args)
  {
    var k :| 0 <= k < |args| && args[k] == "`";
    assert args == args[..k] + (["`"] + args[k + 1..]);
    SplitAllAppend(args[..k], ["`"] + args[k + 1..]);
    LoneBacktick();
    assert SplitAll(["`"] + args[k + 1..]) == ["`", ""] + SplitAll(args[k + 1..]);
    assert (["`", ""] + SplitAll(args[k + 1..]))[1] == "";
  }

  /** A backtick typed as a word of its own—`echo ` echo a `—splits into a backtick and an
      empty argument, and `expand_vars` then raises IndexError: such a line never gets to the
      substitution and ends the REPL. */
  lemma LoneBacktickRaises(bindings: map<string, string>, read: string, callbacks: set<string>,
                           eval: string -> Result<string>)
    requires |Words(read)| >= 2 && Words(read)[0] != "Stop-REPL" && "`" in Words(read)[1..]
    requires forall i :: 1 <= i < |Words(read)| ==> !EndsWithBackslash(Words(read)[i])
    ensures LineAction(bindings, read, callbacks, eval) == Raise(IndexError)
  {
    var comps := Words(read);
    WordsShape(read);
    MergePlain(comps[1..], []);
    assert [] + comps[1..] == comps[1..];
    assert Merged(Somes(comps[1..])) == Ok(comps[1..]);
    SplitHasEmpty(comps[1..]);
    assert Expanded(bindings, SplitAll(comps[1..])).Raise?;
  }

  /** Without an argument ending in a backslash, or one holding a backtick, or one starting
      with "$", the arguments reach the command as they were typed. */
  lemma PlainLine(bindings: map<string, string>, read: string, callbacks: set<string>,
                  eval: string -> Result<string>)
    requires |Words(read)| >= 1 && Words(read)[0] !in {"Stop-REPL", "help", "last"}
    requires forall i :: 0 <= i < |Words(read)| ==> Words(read)[i] != []
    requires forall i :: 1 <= i < |Words(read)| ==>
      !EndsWithBackslash(Words(read)[i]) && NoChar(Words(read)[i], '`') && Words(read)[i][0] != '$'
    ensures LineAction(bindings, read, callbacks, eval) ==
      Ok(Run(Resolve(Words(read)[0], callbacks, Builtins).value, Words(read)[1..]))
  {
    var comps := Words(read);
    var args := comps[1..];
    MergePlain(args, []);
    assert [] + args == args;
    SplitNoBackticks(args);
    ExpandPlain(bindings, args);
    assert "`" !in args by {
      forall i | 0 <= i < |args| ensures args[i] != "`" {
        assert NoChar(args[i], '`');
      }
    }
    SubNoBacktick(args, None, [], [], eval);
    assert [] + args == args;
  }

  lemma ExpandPlain(bindings: map<string, string>, args: seq<string>)
    requires forall i :: 0 <= i < |args| ==> args[i] != [] && args[i][0] != '$'
    ensures Expanded(bindings, args) == Ok(args)
  {
    var e := Expanded(bindings, args);
    assert e.value == args;
  }
}
