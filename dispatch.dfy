/** What `main` does with one input line once it has been read: cut it at the
    newline, tokenize it, strip a trailing `&`, try the built-ins, and
    otherwise look for a pipe and split the command around it. */
module Dispatch {
  import opened Argv
  import opened Tokenizer
  import opened Builtins

  /** The decision `main` reaches for one line. */
  datatype Action =
    | Skip                                              // no arguments: read the next line
    | RunBuiltin(builtin: Builtin)                      // handled in the shell process
    | Pipe(cmd1: seq<string>, cmd2: seq<string>, background: bool)  // execute_pipe
    | InvalidPipe                                       // "Invalid pipe command format"
    | Single(args: seq<string>, background: bool)       // execute_single_command

  // ---------------------------------------------------------------------------
  // Specification
  // ---------------------------------------------------------------------------

  /** The command runs in the background exactly when its last argument is `&`. */
  predicate IsBackground(args: seq<string>)
  {
    |args| > 0 && args[|args| - 1] == "&"
  }

  /** The arguments with a trailing `&` removed; an `&` anywhere else stays. */
  function CommandPart(args: seq<string>): (cmd: seq<string>)
    ensures IsBackground(args) ==> cmd + ["&"] == args
    ensures !IsBackground(args) ==> cmd == args
  {
    if IsBackground(args) then args[..|args| - 1] else args
  }

  /** Index of the first `|`, or -1 when there is none (`find_pipe`). */
  function PipeIndex(args: seq<string>): (k: int)
    ensures -1 <= k < |args|
    ensures k == -1 <==> "|" !in args
    ensures k >= 0 ==> args[k] == "|" && "|" !in args[..k]
  {
    if args == [] then -1
    else if args[0] == "|" then 0
    else
      var r := PipeIndex(args[1..]);
      assert args[1..][..r + 1] == args[1..r + 2] by {
        if r >= 0 { assert args[1..][..r + 1] == args[1..][..r] + [args[r + 1]]; }
      }
      if r == -1 then -1 else r + 1
  }

  /** The outcome of `main` for the argument vector `args`: the built-ins come
      first, then a first `|` that comes after the first argument makes a
      pipeline, which is rejected when nothing follows that `|`; anything else
      runs as one command. */
  function Classify(args: seq<string>, env: map<string, string>): Action
  {
    if args == [] then Skip
    else
      var background := IsBackground(args);
      var cmd := CommandPart(args);
      match BuiltinFor(cmd, env)
      case Some(b) => RunBuiltin(b)
      case None => Route(cmd, background)
  }

  /** How a command that is not a built-in is run: a first `|` that comes
      after the first argument makes a pipeline, rejected when either side is
      empty; anything else runs as one command. */
  function Route(cmd: seq<string>, background: bool): Action
  {
    var k := PipeIndex(cmd);
    if k > 0 then
      if cmd[..k] == [] || cmd[k + 1..] == [] then InvalidPipe
      else Pipe(cmd[..k], cmd[k + 1..], background)
    else Single(cmd, background)
  }

  /** A line ends at its first newline or its first NUL character: `main`
      cuts the line read before its newline, and the C string functions that
      copy and split it stop at a NUL. */
  predicate IsLineEnd(c: char)
  {
    c == '\n' || c == '\0'
  }

  /** The text of a line as `main` passes it to `tokenize`: the longest prefix
      holding no newline and no NUL. */
  function TrimLine(line: string): (r: string)
    ensures |r| <= |line| && r == line[..|r|]
    ensures forall k :: 0 <= k < |r| ==> !IsLineEnd(r[k])
    ensures |r| < |line| ==> IsLineEnd(line[|r|])
  {
    if line == [] || IsLineEnd(line[0]) then []
    else
      var rest := TrimLine(line[1..]);
      assert line[1..][..|rest|] == line[1..|rest| + 1];
      [line[0]] + rest
  }

  // ---------------------------------------------------------------------------
  // Properties of the classification
  // ---------------------------------------------------------------------------

  /** A pipeline is the command split around its first `|`: the two sides are
      non-empty, put back together with the `|` they give the command, the
      left side holds no `|` (later ones stay on the right) and the command
      names no built-in. */
  lemma PipeSplits(args: seq<string>, env: map<string, string>)
    requires Classify(args, env).Pipe?
    ensures var a := Classify(args, env);
      a.cmd1 != [] && a.cmd2 != [] && "|" !in a.cmd1 &&
      a.cmd1 + ["|"] + a.cmd2 == CommandPart(args) &&
      a.background == IsBackground(args) &&
      BuiltinFor(CommandPart(args), env).None?
  {
    var cmd := CommandPart(args);
    var k := PipeIndex(cmd);
    assert cmd[..k] + ["|"] + cmd[k + 1..] == cmd;
  }

  /** Conversely, a command that names no built-in and has a non-empty,
      `|`-free left side, a `|`, and a non-empty right side runs as that
      pipeline. */
  lemma PipeFromSplit(cmd1: seq<string>, cmd2: seq<string>, background: bool, env: map<string, string>)
    requires cmd1 != [] && cmd2 != [] && "|" !in cmd1
    requires cmd1[0] !in BuiltinNames
    requires !background ==> cmd2[|cmd2| - 1] != "&"
    ensures var args := cmd1 + ["|"] + cmd2 + (if background then ["&"] else []);
      Classify(args, env) == Pipe(cmd1, cmd2, background)
  {
    var args := cmd1 + ["|"] + cmd2 + (if background then ["&"] else []);
    var cmd := cmd1 + ["|"] + cmd2;
    assert args[|args| - 1] == if background then "&" else cmd2[|cmd2| - 1];
    assert CommandPart(args) == cmd by {
      if background { assert args[..|args| - 1] == cmd; }
    }
    assert cmd[0] == cmd1[0];
    assert cmd[|cmd1|] == "|" && cmd[..|cmd1|] == cmd1;
    FirstPipe(cmd, |cmd1|);
    assert cmd[|cmd1| + 1..] == cmd2;
  }

  /** A pipeline is rejected as invalid exactly when its `|` is the last
      argument of the command: the left side is never empty, because a `|` in
      first position does not make a pipeline. */
  lemma InvalidPipeExactly(args: seq<string>, env: map<string, string>)
    ensures Classify(args, env) == InvalidPipe <==>
      args != [] && BuiltinFor(CommandPart(args), env).None? &&
      PipeIndex(CommandPart(args)) > 0 &&
      PipeIndex(CommandPart(args)) == |CommandPart(args)| - 1
  {
    if args != [] && BuiltinFor(CommandPart(args), env).None? {
      var cmd := CommandPart(args);
      var k := PipeIndex(cmd);
      if k > 0 {
        assert |cmd[..k]| == k;
        assert |cmd[k + 1..]| == |cmd| - k - 1;
      }
    }
  }

  /** A command that names no built-in runs as a single command exactly when
      its first `|` is not after its first argument; a leading `|` is passed on
      as the program name, together with any later `|`. */
  lemma SingleExactly(args: seq<string>, env: map<string, string>)
    requires args != [] && BuiltinFor(CommandPart(args), env).None?
    ensures Classify(args, env).Single? <==> PipeIndex(CommandPart(args)) <= 0
    ensures Classify(args, env).Single? ==>
      Classify(args, env) == Single(CommandPart(args), IsBackground(args))
  {
  }

  /** Only the first `|` counts: when it leads the command, a later `|` does
      not make a pipeline either, and the whole vector runs as one command. */
  lemma LeadingPipeRunsWhole(env: map<string, string>)
    ensures Classify(["|", "a", "|", "b"], env) == Single(["|", "a", "|", "b"], false)
  {
    assert PipeIndex(["|", "a", "|", "b"]) == 0;
  }

  /** The built-ins are tried before the pipe: a line whose first word is a
      built-in name is run as that built-in even when it contains `|`. */
  lemma BuiltinsBeforePipes(args: seq<string>, env: map<string, string>)
    requires args != [] && CommandPart(args) != [] && CommandPart(args)[0] in BuiltinNames
    ensures Classify(args, env) == RunBuiltin(BuiltinFor(CommandPart(args), env).value)
  {
  }

  /** Background stripping removes only a final `&`: `echo a & b` echoes all
      three words, while `sleep 5 &` runs `sleep 5` in the background. */
  lemma AmpersandOnlyAtEnd(args: seq<string>, env: map<string, string>)
    requires args != [] && args[|args| - 1] != "&"
    ensures CommandPart(args + ["&"]) == args && IsBackground(args + ["&"])
    ensures CommandPart(args) == args && !IsBackground(args)
  {
    assert (args + ["&"])[..|args|] == args;
  }

  /** A lone `&` leaves an empty vector, which is neither a built-in nor a pipe
      and so is handed to single-command execution. */
  lemma LoneAmpersand(env: map<string, string>)
    ensures Classify(["&"], env) == Single([], true)
  {
    assert ["&"][..0] == [];
  }

  // ---------------------------------------------------------------------------
  // The code of main
  // ---------------------------------------------------------------------------

  /** Removes a trailing `&` from the vector: the slot becomes the new NULL
      sentinel and the count drops by one. */
  method StripBackground(arguments: array<Option<string>>, argCount: nat, ghost args: seq<string>)
    returns (isBackground: bool, count: nat)
    requires HoldsArgv(arguments, args) && argCount == |args|
    modifies arguments
    ensures isBackground == IsBackground(args)
    ensures count == |CommandPart(args)| && HoldsArgv(arguments, CommandPart(args))
    ensures arguments[..] == if isBackground then old(arguments[..])[argCount - 1 := None]
                             else old(arguments[..])
  {
    isBackground, count := false, argCount;
    if argCount > 0 && arguments[argCount - 1].value == "&" {
      isBackground := true;
      arguments[argCount - 1] := None;
      count := argCount - 1;
    }
  }

  /** `find_pipe`: scans the vector up to its NULL sentinel for `|`. */
  method FindPipe(arguments: array<Option<string>>, ghost args: seq<string>) returns (k: int)
    requires HoldsArgv(arguments, args)
    ensures k == PipeIndex(args)
  {
    var i := 0;
    while arguments[i] != None
      invariant 0 <= i <= |args|
      invariant "|" !in args[..i]
      decreases |args| - i
    {
      if arguments[i].value == "|" {
        FirstPipe(args, i);
        return i;
      }
      assert args[..i + 1] == args[..i] + [args[i]];
      i := i + 1;
    }
    assert i == |args| && args[..i] == args;
    return -1;
  }

  /** An index holding `|` with none before it is the first `|`. */
  lemma FirstPipe(args: seq<string>, i: nat)
    requires i < |args| && args[i] == "|" && "|" !in args[..i]
    ensures PipeIndex(args) == i
  {
  }

  /** The block of `main` that copies the arguments before the `|` into a new
      vector `cmd1` (the memcpy) and those after it, up to the NULL sentinel,
      into a new vector `cmd2`. */
  method SplitAtPipe(arguments: array<Option<string>>, pipeIndex: nat, ghost cmd: seq<string>)
    returns (cmd1: array<Option<string>>, cmd2: array<Option<string>>, count2: nat)
    requires HoldsArgv(arguments, cmd) && arguments.Length == MaxCommandLineArgs
    requires pipeIndex < |cmd|
    ensures fresh(cmd1) && fresh(cmd2)
    ensures cmd1.Length == MaxCommandLineArgs && cmd2.Length == MaxCommandLineArgs
    ensures HoldsArgv(cmd1, cmd[..pipeIndex])
    ensures count2 == |cmd| - pipeIndex - 1 && HoldsArgv(cmd2, cmd[pipeIndex + 1..])
  {
    cmd1 := new Option<string>[MaxCommandLineArgs](_ => None);
    forall k | 0 <= k < pipeIndex {
      cmd1[k] := arguments[k];
    }
    cmd1[pipeIndex] := None;
    cmd2 := new Option<string>[MaxCommandLineArgs](_ => None);
    var j := 0;
    var i := pipeIndex + 1;
    while arguments[i] != None
      invariant pipeIndex + 1 <= i <= |cmd| && j == i - pipeIndex - 1
      invariant forall m :: 0 <= m < j ==> cmd2[m] == Some(cmd[pipeIndex + 1 + m])
      invariant forall m :: j <= m < cmd2.Length ==> cmd2[m] == None
      modifies cmd2
      decreases |cmd| - i
    {
      cmd2[j] := arguments[i];
      j, i := j + 1, i + 1;
    }
    count2 := j;
  }

  /** Lines 323-345 of `main`: find the pipe and either split the command
      around it or run it whole. */
  method RunExternal(arguments: array<Option<string>>, count: nat, background: bool,
                     ghost cmd: seq<string>)
    returns (action: Action)
    requires HoldsArgv(arguments, cmd) && count == |cmd|
    requires arguments.Length == MaxCommandLineArgs
    ensures action == Route(cmd, background)
  {
    var pipeIndex := FindPipe(arguments, cmd);
    if pipeIndex > 0 {
      var cmd1, cmd2, count2 := SplitAtPipe(arguments, pipeIndex, cmd);
      StringsOfArgv(cmd1, cmd[..pipeIndex]);
      StringsOfArgv(cmd2, cmd[pipeIndex + 1..]);
      if cmd1[0] == None || cmd2[0] == None {
        action := InvalidPipe;
      } else {
        action := Pipe(Strings(cmd1[..pipeIndex]), Strings(cmd2[..count2]), background);
      }
    } else {
      StringsOfArgv(arguments, cmd);
      action := Single(Strings(arguments[..count]), background);
    }
  }

  /** Lines 307-345 of `main` for a tokenized vector: the action taken, with
      the vector's trailing `&` stripped in place. */
  method Dispatch(arguments: array<Option<string>>, argCount: nat, env: map<string, string>,
                  ghost args: seq<string>)
    returns (action: Action)
    requires HoldsArgv(arguments, args) && argCount == |args|
    requires arguments.Length == MaxCommandLineArgs
    modifies arguments
    ensures action == Classify(args, env)
    ensures arguments[..] == if IsBackground(args) then old(arguments[..])[argCount - 1 := None]
                             else old(arguments[..])
  {
    if argCount == 0 {
      return Skip;
    }
    var isBackground, count := StripBackground(arguments, argCount, args);
    var builtin := ExecuteBuiltin(arguments, count, env, CommandPart(args));
    if builtin.Some? {
      return RunBuiltin(builtin.value);
    }
    action := RunExternal(arguments, count, isBackground, CommandPart(args));
  }

  /** One pass of `main` after `fgets` has returned `line`: a line read at the
      end of input (one with no final newline) is discarded; otherwise the line
      is cut at its end, tokenized into a fresh vector and dispatched. Returns
      the action and the unset variables `tokenize` warned about. */
  method FrontEnd(line: string, endOfInput: bool, env: map<string, string>)
    returns (action: Action, warned: seq<string>)
    ensures endOfInput ==> action == Skip && warned == []
    ensures !endOfInput ==>
      action == Classify(Expand(Words(TrimLine(line)), env, MaxCommandLineArgs - 1), env) &&
      warned == Unset(Words(TrimLine(line)), env, MaxCommandLineArgs - 1)
  {
    if endOfInput {
      return Skip, [];
    }
    var commandLine := TrimLine(line);
    var arguments := new Option<string>[MaxCommandLineArgs](_ => None);
    var argCount;
    argCount, warned := Tokenize(commandLine, env, arguments);
    action := Dispatch(arguments, argCount, env, Expand(Words(commandLine), env, MaxCommandLineArgs - 1));
  }

  /** Whatever follows the first newline or NUL of a line is ignored. */
  lemma TextAfterLineEndIgnored(text: string, end: char, rest: string)
    requires forall k :: 0 <= k < |text| ==> !IsLineEnd(text[k])
    requires IsLineEnd(end)
    ensures TrimLine(text + [end] + rest) == text
  {
    var line := text + [end] + rest;
    var r := TrimLine(line);
    assert line[|text|] == end;
    assert line[..|text|] == text;
    assert forall k :: 0 <= k < |text| ==> line[k] == text[k];
  }

  /** A line holding only spaces, tabs, carriage returns, newlines and NULs is
      skipped. */
  lemma BlankLineSkipped(line: string, env: map<string, string>)
    requires forall k :: 0 <= k < |line| ==> IsDelimiter(line[k]) || IsLineEnd(line[k])
    ensures Classify(Expand(Words(TrimLine(line)), env, MaxCommandLineArgs - 1), env) == Skip
  {
    var t := TrimLine(line);
    assert forall k :: 0 <= k < |t| ==> t[k] == line[k];
    BlankHasNoWords(t, 0);
  }
}
