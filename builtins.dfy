/** The built-in commands the shell runs in its own process
    (`execute_builtin` in shell.c): which command a vector names, what it
    needs from its arguments, and the line `echo` writes. */
module Builtins {
  import opened Argv
  import opened Tokenizer

  /** What `execute_builtin` does for a recognised command. */
  datatype Builtin =
    | Exit                              // exit(0)
    | Pwd                               // print the working directory
    | Cd(target: string)                // chdir(target)
    | CdHomeUnset                       // `cd` alone with HOME unset: error message only
    | Echo(output: string)              // the exact characters written to stdout
    | Env                               // print every environment entry
    | SetEnv(name: string, value: string)  // setenv(name, value, 1)
    | SetEnvUsage                       // `setenv` with the wrong arity: usage message only

  /** The command names `execute_builtin` compares against, in its order. */
  const BuiltinNames: seq<string> := ["exit", "pwd", "cd", "echo", "env", "setenv"]

  /** Words separated by single spaces, with no space before the first or after
      the last. */
  function JoinSpaces(ws: seq<string>): string
  {
    if ws == [] then ""
    else if |ws| == 1 then ws[0]
    else ws[0] + " " + JoinSpaces(ws[1..])
  }

  /** Appending a word puts exactly one space before it. */
  lemma {:induction false} JoinSpacesSnoc(ws: seq<string>, w: string)
    requires ws != []
    ensures JoinSpaces(ws + [w]) == JoinSpaces(ws) + " " + w
  {
    var all := ws + [w];
    assert all[0] == ws[0];
    if |ws| == 1 {
      assert all[1..] == [w];
    } else {
      assert all[1..] == ws[1..] + [w];
      JoinSpacesSnoc(ws[1..], w);
    }
  }

  /** The built-in named by a command vector, if any, given the environment
      (`cd` with no argument falls back to HOME). */
  function BuiltinFor(args: seq<string>, env: map<string, string>): (b: Option<Builtin>)
    ensures b.Some? <==> |args| > 0 && args[0] in BuiltinNames
  {
    if args == [] then None
    else if args[0] == "exit" then Some(Exit)
    else if args[0] == "pwd" then Some(Pwd)
    else if args[0] == "cd" then
      if |args| > 1 then Some(Cd(args[1]))
      else if "HOME" in env then Some(Cd(env["HOME"]))
      else Some(CdHomeUnset)
    else if args[0] == "echo" then Some(Echo(JoinSpaces(args[1..]) + "\n"))
    else if args[0] == "env" then Some(Env)
    else if args[0] == "setenv" then
      if |args| == 3 then Some(SetEnv(args[1], args[2])) else Some(SetEnvUsage)
    else None
  }

  /** The names `setenv` accepts: it fails with EINVAL, changing nothing, for
      the empty name and for a name containing `=`. */
  predicate SetEnvAccepts(name: string)
  {
    name != "" && '=' !in name
  }

  /** The environment after a built-in has run: only a `setenv` whose name is
      accepted changes it, overwriting any earlier value. */
  function EnvAfter(b: Builtin, env: map<string, string>): (env': map<string, string>)
    ensures b.SetEnv? && SetEnvAccepts(b.name) ==> b.name in env' && env'[b.name] == b.value
    ensures !(b.SetEnv? && SetEnvAccepts(b.name)) ==> env' == env
    ensures forall n :: n in env && !(b.SetEnv? && n == b.name) ==> n in env' && env'[n] == env[n]
    ensures forall n :: n in env' ==> n in env || (b.SetEnv? && n == b.name)
  {
    if b.SetEnv? && SetEnvAccepts(b.name) then env[b.name := b.value] else env
  }

  // ---------------------------------------------------------------------------
  // Properties of the built-ins
  // ---------------------------------------------------------------------------

  /** `cd DIR` changes to DIR whatever else follows; `cd` alone goes to HOME,
      and reports an error without changing directory when HOME is unset. */
  lemma CdTarget(args: seq<string>, env: map<string, string>)
    requires |args| > 0 && args[0] == "cd"
    ensures |args| > 1 ==> BuiltinFor(args, env) == Some(Cd(args[1]))
    ensures |args| == 1 && "HOME" in env ==> BuiltinFor(args, env) == Some(Cd(env["HOME"]))
    ensures |args| == 1 && "HOME" !in env ==> BuiltinFor(args, env) == Some(CdHomeUnset)
  {
  }

  /** `setenv` sets a variable exactly when it is given a name and a value and
      nothing more; otherwise it only prints its usage. */
  lemma SetEnvArity(args: seq<string>, env: map<string, string>)
    requires |args| > 0 && args[0] == "setenv"
    ensures BuiltinFor(args, env).value.SetEnv? <==> |args| == 3
    ensures |args| == 3 ==> BuiltinFor(args, env) == Some(SetEnv(args[1], args[2]))
    ensures |args| != 3 ==> BuiltinFor(args, env) == Some(SetEnvUsage)
  {
  }

  /** After `setenv NAME VALUE`, the token `$NAME` expands to VALUE; when
      `setenv` rejects NAME, the token expands as it did before. */
  lemma SetEnvThenExpand(args: seq<string>, env: map<string, string>)
    requires |args| == 3 && args[0] == "setenv"
    ensures var b := BuiltinFor(args, env).value;
      SetEnvAccepts(args[1]) ==> ExpandToken("$" + args[1], EnvAfter(b, env)) == Some(args[2])
    ensures var b := BuiltinFor(args, env).value;
      !SetEnvAccepts(args[1]) ==> ExpandToken("$" + args[1], EnvAfter(b, env)) == ExpandToken("$" + args[1], env)
  {
    assert ("$" + args[1])[1..] == args[1];
  }

  /** Splitting the line `echo` writes gives back exactly the words it was
      given, when each of them is a token. */
  lemma {:induction false} WordsOfJoin(ws: seq<string>)
    requires forall k :: 0 <= k < |ws| ==> IsToken(ws[k])
    ensures Words(JoinSpaces(ws) + "\n") == ws
  {
    if ws == [] {
      assert JoinSpaces(ws) + "\n" == "\n";
      assert WordsFrom("\n", 0) == WordsFrom("\n", 1);
    } else if |ws| == 1 {
      WordsAfterToken(ws[0], '\n', "");
      assert ws[0] + ['\n'] + "" == JoinSpaces(ws) + "\n";
    } else {
      WordsOfJoin(ws[1..]);
      WordsAfterToken(ws[0], ' ', JoinSpaces(ws[1..]) + "\n");
      assert ws[0] + [' '] + (JoinSpaces(ws[1..]) + "\n") == JoinSpaces(ws) + "\n";
    }
  }

  /** `echo` round trip: when the arguments are tokens, re-splitting what `echo`
      prints yields them back. */
  lemma EchoRoundTrip(args: seq<string>, env: map<string, string>)
    requires |args| > 0 && args[0] == "echo"
    requires forall k :: 0 <= k < |args| ==> IsToken(args[k])
    ensures BuiltinFor(args, env).value.Echo?
    ensures Words(BuiltinFor(args, env).value.output) == args[1..]
  {
    WordsOfJoin(args[1..]);
  }

  // ---------------------------------------------------------------------------
  // execute_builtin
  // ---------------------------------------------------------------------------

  /** The loop of `echo`: each argument followed by a space, except the last,
      then a newline. */
  method EchoOutput(arguments: array<Option<string>>, argCount: nat, ghost args: seq<string>)
    returns (out: string)
    requires HoldsArgv(arguments, args) && argCount == |args| && argCount >= 1
    ensures out == JoinSpaces(args[1..]) + "\n"
  {
    out := "";
    var i := 1;
    while i < argCount
      invariant 1 <= i <= argCount
      invariant out == JoinSpaces(args[1..i]) + (if 1 < i < argCount then " " else "")
    {
      var sep := if i == argCount - 1 then "" else " ";
      if i > 1 {
        JoinSpacesSnoc(args[1..i], args[i]);
        assert args[1..i + 1] == args[1..i] + [args[i]];
      } else {
        assert args[1..i + 1] == [args[i]];
      }
      out := out + arguments[i].value + sep;
      i := i + 1;
    }
    assert args[1..i] == args[1..];
    out := out + "\n";
  }

  /** `execute_builtin(arguments, arg_count)`: the built-in the vector names,
      or None (the C function's 0) when it names none. */
  method ExecuteBuiltin(arguments: array<Option<string>>, argCount: nat, env: map<string, string>,
                        ghost args: seq<string>)
    returns (b: Option<Builtin>)
    requires HoldsArgv(arguments, args) && argCount == |args|
    ensures b == BuiltinFor(args, env)
  {
    if arguments[0] == None {
      return None;
    }
    var name := arguments[0].value;
    if name == "exit" {
      b := Some(Exit);
    } else if name == "pwd" {
      b := Some(Pwd);
    } else if name == "cd" {
      var target: Option<string> := if argCount > 1 then arguments[1]
        else if "HOME" in env then Some(env["HOME"]) else None;
      if target == None {
        b := Some(CdHomeUnset);
      } else {
        b := Some(Cd(target.value));
      }
    } else if name == "echo" {
      var out := EchoOutput(arguments, argCount, args);
      b := Some(Echo(out));
    } else if name == "env" {
      b := Some(Env);
    } else if name == "setenv" {
      if argCount != 3 {
        b := Some(SetEnvUsage);
      } else {
        b := Some(SetEnv(arguments[1].value, arguments[2].value));
      }
    } else {
      b := None;
    }
  }
}
