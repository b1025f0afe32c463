/** Splitting a command line into arguments (`tokenize` in shell.c):
    strtok over the delimiter set, `$NAME` expansion against the environment,
    and the cap of MAX_COMMAND_LINE_ARGS - 1 arguments before the NULL sentinel. */
module Tokenizer {
  import opened Argv

  /** The delimiter set handed to strtok: space, tab, carriage return, line feed. */
  predicate IsDelimiter(c: char)
  {
    c == ' ' || c == '\t' || c == '\r' || c == '\n'
  }

  /** A token as strtok yields it: non-empty and free of delimiters. */
  predicate IsToken(w: string)
  {
    |w| > 0 && forall k :: 0 <= k < |w| ==> !IsDelimiter(w[k])
  }

  // ---------------------------------------------------------------------------
  // Reference definition of what strtok produces
  // ---------------------------------------------------------------------------

  /** End of the delimiter-free run of `line` that starts at `pos`. */
  function RunEnd(line: string, pos: nat): (e: nat)
    requires pos <= |line|
    ensures pos <= e <= |line|
    ensures pos < |line| && !IsDelimiter(line[pos]) ==> pos < e
    decreases |line| - pos
  {
    if pos == |line| || IsDelimiter(line[pos]) then pos else RunEnd(line, pos + 1)
  }

  /** The run is delimiter-free and stops at a delimiter or at the end of the line. */
  lemma {:induction false} RunEndMaximal(line: string, pos: nat)
    requires pos <= |line|
    ensures forall k :: pos <= k < RunEnd(line, pos) ==> !IsDelimiter(line[k])
    ensures RunEnd(line, pos) == |line| || IsDelimiter(line[RunEnd(line, pos)])
    decreases |line| - pos
  {
    if pos < |line| && !IsDelimiter(line[pos]) {
      RunEndMaximal(line, pos + 1);
    }
  }

  /** A run ends exactly where the first delimiter (or the end of the line) is. */
  lemma {:induction false} RunEndIs(line: string, pos: nat, e: nat)
    requires pos <= e <= |line|
    requires forall k :: pos <= k < e ==> !IsDelimiter(line[k])
    requires e == |line| || IsDelimiter(line[e])
    ensures RunEnd(line, pos) == e
    decreases e - pos
  {
    if pos < e {
      RunEndIs(line, pos + 1, e);
    }
  }

  /** The maximal runs of non-delimiter characters of `line` from `pos` on, in order. */
  function WordsFrom(line: string, pos: nat): seq<string>
    requires pos <= |line|
    decreases |line| - pos
  {
    if pos == |line| then []
    else if IsDelimiter(line[pos]) then WordsFrom(line, pos + 1)
    else
      var e := RunEnd(line, pos);
      [line[pos..e]] + WordsFrom(line, e)
  }

  /** The words of a whole line. */
  function Words(line: string): seq<string>
  {
    WordsFrom(line, 0)
  }

  /** Runs that start at the same characters have the same length. */
  lemma {:induction false} SameRun(a: string, p: nat, b: string, q: nat)
    requires p <= |a| && q <= |b| && |a| - p == |b| - q
    requires forall k :: p <= k < |a| ==> a[k] == b[k - p + q]
    ensures RunEnd(a, p) - p == RunEnd(b, q) - q
    decreases |a| - p
  {
    if p < |a| {
      assert a[p] == b[q];
      if !IsDelimiter(a[p]) {
        SameRun(a, p + 1, b, q + 1);
      }
    }
  }

  /** The words from a position depend only on the characters from there on. */
  lemma {:induction false} SameWords(a: string, p: nat, b: string, q: nat)
    requires p <= |a| && q <= |b| && |a| - p == |b| - q
    requires forall k :: p <= k < |a| ==> a[k] == b[k - p + q]
    ensures WordsFrom(a, p) == WordsFrom(b, q)
    decreases |a| - p
  {
    if p < |a| {
      assert a[p] == b[q];
      if IsDelimiter(a[p]) {
        SameWords(a, p + 1, b, q + 1);
      } else {
        SameRun(a, p, b, q);
        var e, f := RunEnd(a, p), RunEnd(b, q);
        assert a[p..e] == b[q..f];
        SameWords(a, e, b, f);
      }
    }
  }

  /** The words put back together with nothing between them. */
  function Concat(ws: seq<string>): string
  {
    if ws == [] then [] else ws[0] + Concat(ws[1..])
  }

  // Together with `Words("") == []`, the three lemmas below determine `Words`
  // on every line: leading delimiters are skipped, and a word runs up to the
  // next delimiter or the end of the line.

  /** A delimiter in front of a line adds no word. */
  lemma WordsSkipDelimiter(sep: char, tail: string)
    requires IsDelimiter(sep)
    ensures Words([sep] + tail) == Words(tail)
  {
    var s := [sep] + tail;
    assert WordsFrom(s, 0) == WordsFrom(s, 1);
    SameWords(s, 1, tail, 0);
  }

  /** A token followed by a delimiter is the first word; the words after it are
      those of the rest of the line. */
  lemma WordsAfterToken(w: string, sep: char, tail: string)
    requires IsToken(w) && IsDelimiter(sep)
    ensures Words(w + [sep] + tail) == [w] + Words(tail)
  {
    var s := w + [sep] + tail;
    assert s[|w|] == sep;
    assert forall k :: 0 <= k < |w| ==> s[k] == w[k];
    RunEndIs(s, 0, |w|);
    assert s[0..|w|] == w;
    assert WordsFrom(s, |w|) == WordsFrom(s, |w| + 1);
    SameWords(s, |w| + 1, tail, 0);
  }

  /** A token alone is a single word. */
  lemma WordsOfToken(w: string)
    requires IsToken(w)
    ensures Words(w) == [w]
  {
    RunEndIs(w, 0, |w|);
    assert w[0..|w|] == w;
    assert WordsFrom(w, 0) == [w] + WordsFrom(w, |w|);
  }

  /** A line of delimiters only (an empty line included) has no words. */
  lemma {:induction false} BlankHasNoWords(line: string, pos: nat)
    requires pos <= |line|
    requires forall k :: pos <= k < |line| ==> IsDelimiter(line[k])
    ensures WordsFrom(line, pos) == []
    decreases |line| - pos
  {
    if pos < |line| {
      BlankHasNoWords(line, pos + 1);
    }
  }

  /** The characters of `s` that are not delimiters, in order. */
  function NonDelimiters(s: string): string
  {
    if s == [] then []
    else (if IsDelimiter(s[0]) then [] else [s[0]]) + NonDelimiters(s[1..])
  }

  lemma {:induction false} NonDelimitersAppend(a: string, b: string)
    ensures NonDelimiters(a + b) == NonDelimiters(a) + NonDelimiters(b)
  {
    if a == [] {
      assert a + b == b;
    } else {
      assert (a + b)[0] == a[0];
      assert (a + b)[1..] == a[1..] + b;
      NonDelimitersAppend(a[1..], b);
    }
  }

  lemma {:induction false} NonDelimitersOfRun(w: string)
    requires forall k :: 0 <= k < |w| ==> !IsDelimiter(w[k])
    ensures NonDelimiters(w) == w
  {
    if w != [] {
      NonDelimitersOfRun(w[1..]);
    }
  }

  /** Every word is a non-empty, delimiter-free token. */
  lemma {:induction false} WordsAreTokens(line: string, pos: nat)
    requires pos <= |line|
    ensures forall k :: 0 <= k < |WordsFrom(line, pos)| ==> IsToken(WordsFrom(line, pos)[k])
    decreases |line| - pos
  {
    if pos == |line| {
    } else if IsDelimiter(line[pos]) {
      WordsAreTokens(line, pos + 1);
    } else {
      var e := RunEnd(line, pos);
      RunEndMaximal(line, pos);
      WordsAreTokens(line, e);
    }
  }

  /** Splitting loses no character but the delimiters and keeps the order:
      the words, put back together, are exactly the non-delimiter characters. */
  lemma {:induction false} WordsKeepCharacters(line: string, pos: nat)
    requires pos <= |line|
    ensures Concat(WordsFrom(line, pos)) == NonDelimiters(line[pos..])
    decreases |line| - pos
  {
    if pos == |line| {
    } else if IsDelimiter(line[pos]) {
      assert line[pos..][1..] == line[pos + 1..];
      WordsKeepCharacters(line, pos + 1);
    } else {
      var e := RunEnd(line, pos);
      RunEndMaximal(line, pos);
      WordsKeepCharacters(line, e);
      assert line[pos..] == line[pos..e] + line[e..];
      NonDelimitersAppend(line[pos..e], line[e..]);
      NonDelimitersOfRun(line[pos..e]);
    }
  }

  // ---------------------------------------------------------------------------
  // strtok
  // ---------------------------------------------------------------------------

  /** One call of strtok resuming at `pos`: skip delimiters, take the run up to
      the next delimiter, and resume after that delimiter (strtok overwrites it
      with NUL). Returns None (NULL) when only delimiters are left. */
  method NextToken(line: string, pos: nat) returns (token: Option<string>, next: nat)
    requires pos <= |line|
    ensures pos <= next <= |line|
    ensures token.Some? ==> IsToken(token.value)
    ensures WordsFrom(line, pos) == if token.None? then [] else [token.value] + WordsFrom(line, next)
  {
    var start := pos;
    while start < |line| && IsDelimiter(line[start])
      invariant pos <= start <= |line|
      invariant WordsFrom(line, pos) == WordsFrom(line, start)
    {
      start := start + 1;
    }
    if start == |line| {
      return None, |line|;
    }
    var stop := start;
    while stop < |line| && !IsDelimiter(line[stop])
      invariant start <= stop <= |line|
      invariant forall k :: start <= k < stop ==> !IsDelimiter(line[k])
    {
      stop := stop + 1;
    }
    RunEndIs(line, start, stop);
    token := Some(line[start..stop]);
    if stop < |line| {
      next := stop + 1;
    } else {
      next := stop;
    }
  }

  // ---------------------------------------------------------------------------
  // Variable expansion and the argument cap
  // ---------------------------------------------------------------------------

  /** `getenv(name)`: the value of a variable of the environment, or None
      (NULL) when it is not set; the C library never finds the empty name. */
  function GetEnv(env: map<string, string>, name: string): (value: Option<string>)
    ensures value.Some? <==> name != "" && name in env
    ensures value.Some? ==> value.value == env[name]
  {
    if name != "" && name in env then Some(env[name]) else None
  }

  /** What one token contributes: the value of `NAME` for a `$NAME` token whose
      variable is set, nothing when it is unset (a bare `$` names the empty,
      never-set variable), and the token itself otherwise. */
  function ExpandToken(token: string, env: map<string, string>): Option<string>
  {
    if |token| > 0 && token[0] == '$' then GetEnv(env, token[1..])
    else Some(token)
  }

  /** The arguments `tokenize` stores: tokens are expanded in order until
      `room` arguments have been stored; an unset variable stores nothing and
      uses up no room. */
  function Expand(tokens: seq<string>, env: map<string, string>, room: nat): (args: seq<string>)
    ensures |args| <= room
  {
    if tokens == [] || room == 0 then []
    else match ExpandToken(tokens[0], env)
      case Some(a) => [a] + Expand(tokens[1..], env, room - 1)
      case None => Expand(tokens[1..], env, room)
  }

  /** The variable names `tokenize` warns about, in order. */
  function Unset(tokens: seq<string>, env: map<string, string>, room: nat): seq<string>
  {
    if tokens == [] || room == 0 then []
    else match ExpandToken(tokens[0], env)
      case Some(_) => Unset(tokens[1..], env, room - 1)
      case None => [tokens[0][1..]] + Unset(tokens[1..], env, room)
  }

  /** Expansion with no cap: each token's contribution, concatenated. */
  function ExpandAll(tokens: seq<string>, env: map<string, string>): seq<string>
  {
    if tokens == [] then []
    else
      (match ExpandToken(tokens[0], env) case Some(a) => [a] case None => [])
      + ExpandAll(tokens[1..], env)
  }

  /** The cap only truncates: the stored arguments are a prefix of the uncapped
      expansion, as long as it or as `room`, whichever is shorter. */
  lemma {:induction false} ExpandIsPrefix(tokens: seq<string>, env: map<string, string>, room: nat)
    ensures var all := ExpandAll(tokens, env);
      Expand(tokens, env, room) == all[..if room < |all| then room else |all|]
  {
    if tokens != [] && room > 0 {
      var all := ExpandAll(tokens, env);
      var rest := ExpandAll(tokens[1..], env);
      match ExpandToken(tokens[0], env)
      case Some(a) =>
        ExpandIsPrefix(tokens[1..], env, room - 1);
        assert all == [a] + rest;
        var m := if room - 1 < |rest| then room - 1 else |rest|;
        assert all[..m + 1] == [a] + rest[..m];
      case None =>
        ExpandIsPrefix(tokens[1..], env, room);
        assert all == rest;
    }
  }

  /** Expansion works token by token: it distributes over concatenation. */
  lemma {:induction false} ExpandAllAppend(a: seq<string>, b: seq<string>, env: map<string, string>)
    ensures ExpandAll(a + b, env) == ExpandAll(a, env) + ExpandAll(b, env)
  {
    if a == [] {
      assert a + b == b;
    } else {
      assert (a + b)[0] == a[0];
      assert (a + b)[1..] == a[1..] + b;
      ExpandAllAppend(a[1..], b, env);
    }
  }

  /** Tokens that do not start with `$` are passed through unchanged. */
  lemma {:induction false} ExpandAllLiterals(tokens: seq<string>, env: map<string, string>)
    requires forall k :: 0 <= k < |tokens| ==> |tokens[k]| > 0 && tokens[k][0] != '$'
    ensures ExpandAll(tokens, env) == tokens
  {
    if tokens != [] {
      ExpandAllLiterals(tokens[1..], env);
    }
  }

  /** Each token processed yields exactly one argument or exactly one warning,
      never both and never an empty-string stand-in; all tokens are processed
      unless the cap was reached. */
  lemma {:induction false} ArgumentOrWarning(tokens: seq<string>, env: map<string, string>, room: nat)
    ensures |Expand(tokens, env, room)| + |Unset(tokens, env, room)| <= |tokens|
    ensures |Expand(tokens, env, room)| < room ==>
      |Expand(tokens, env, room)| + |Unset(tokens, env, room)| == |tokens|
  {
    if tokens == [] || room == 0 {
    } else if ExpandToken(tokens[0], env).Some? {
      ArgumentOrWarning(tokens[1..], env, room - 1);
    } else {
      ArgumentOrWarning(tokens[1..], env, room);
    }
  }

  /** A `$NAME` token whose variable is set yields exactly one argument, the
      value itself (not split again, whatever it contains), and uses one unit of
      room; when the variable is unset it yields no argument at all, not even an
      empty one, uses no room, and NAME is warned about. A bare `$` is always
      warned about, whatever the environment holds. */
  lemma ExpandVariable(name: string, rest: seq<string>, env: map<string, string>, room: nat)
    requires room > 0
    ensures name != "" && name in env ==>
      Expand(["$" + name] + rest, env, room) == [env[name]] + Expand(rest, env, room - 1) &&
      Unset(["$" + name] + rest, env, room) == Unset(rest, env, room - 1)
    ensures name == "" || name !in env ==>
      Expand(["$" + name] + rest, env, room) == Expand(rest, env, room) &&
      Unset(["$" + name] + rest, env, room) == [name] + Unset(rest, env, room)
  {
    var ts := ["$" + name] + rest;
    assert ts[0] == "$" + name && ts[1..] == rest;
    assert ("$" + name)[1..] == name;
  }

  /** `tokenize`'s loop as a fold: the arguments and warnings accumulated so far,
      extended by those of the remaining tokens. */
  function Fold(tokens: seq<string>, env: map<string, string>, room: nat,
                args: seq<string>, warned: seq<string>): (seq<string>, seq<string>)
  {
    if tokens == [] || room == 0 then (args, warned)
    else match ExpandToken(tokens[0], env)
      case Some(a) => Fold(tokens[1..], env, room - 1, args + [a], warned)
      case None => Fold(tokens[1..], env, room, args, warned + [tokens[0][1..]])
  }

  /** The fold started on what was produced and warned so far finishes with
      the capped expansion and the warnings of the remaining tokens appended. */
  lemma {:induction false} FoldIsExpand(tokens: seq<string>, env: map<string, string>, room: nat,
                                        args: seq<string>, warned: seq<string>)
    ensures Fold(tokens, env, room, args, warned) ==
      (args + Expand(tokens, env, room), warned + Unset(tokens, env, room))
  {
    if tokens == [] || room == 0 {
      assert args + [] == args && warned + [] == warned;
    } else {
      match ExpandToken(tokens[0], env)
      case Some(a) =>
        FoldIsExpand(tokens[1..], env, room - 1, args + [a], warned);
        assert (args + [a]) + Expand(tokens[1..], env, room - 1) == args + ([a] + Expand(tokens[1..], env, room - 1));
      case None =>
        var w := tokens[0][1..];
        FoldIsExpand(tokens[1..], env, room, args, warned + [w]);
        assert (warned + [w]) + Unset(tokens[1..], env, room) == warned + ([w] + Unset(tokens[1..], env, room));
    }
  }

  // ---------------------------------------------------------------------------
  // tokenize
  // ---------------------------------------------------------------------------

  /** The body of `tokenize`'s loop for one token `t`: store its expansion in
      slot `i` and advance `i`, or warn about an unset variable; either way the
      fold of the remaining tokens still ends at the same `result`. */
  method TakeToken(t: string, env: map<string, string>, arguments: array<Option<string>>, i: nat,
                    warned: seq<string>, ghost rest: seq<string>, ghost produced: seq<string>,
                    ghost result: (seq<string>, seq<string>))
    returns (i': nat, warned': seq<string>, ghost produced': seq<string>)
    requires |t| > 0 && i < MaxCommandLineArgs - 1 && arguments.Length == MaxCommandLineArgs
    requires |produced| == i && forall k :: 0 <= k < i ==> arguments[k] == Some(produced[k])
    requires Fold([t] + rest, env, MaxCommandLineArgs - 1 - i, produced, warned) == result
    modifies arguments
    ensures i <= i' <= i + 1 && |produced'| == i'
    ensures forall k :: 0 <= k < i' ==> arguments[k] == Some(produced'[k])
    ensures Fold(rest, env, MaxCommandLineArgs - 1 - i', produced', warned') == result
  {
    assert ([t] + rest)[0] == t && ([t] + rest)[1..] == rest;
    if t[0] == '$' {
      var name := t[1..];
      var value := GetEnv(env, name);
      if value.Some? {
        arguments[i] := value;
        i', warned', produced' := i + 1, warned, produced + [value.value];
      } else {
        i', warned', produced' := i, warned + [name], produced;
      }
    } else {
      arguments[i] := Some(t);
      i', warned', produced' := i + 1, warned, produced + [t];
    }
  }

  /** `tokenize(command_line, arguments)`: stores the expanded arguments of
      `line` in `arguments`, at most MAX_COMMAND_LINE_ARGS - 1 of them, followed
      by the NULL sentinel, and returns their number together with the names of
      the unset variables it warned about, in order. */
  method Tokenize(line: string, env: map<string, string>, arguments: array<Option<string>>)
    returns (count: nat, warned: seq<string>)
    requires arguments.Length == MaxCommandLineArgs
    modifies arguments
    ensures count <= MaxCommandLineArgs - 1
    ensures count == |Expand(Words(line), env, MaxCommandLineArgs - 1)|
    ensures HoldsArgv(arguments, Expand(Words(line), env, MaxCommandLineArgs - 1))
    ensures warned == Unset(Words(line), env, MaxCommandLineArgs - 1)
  {
    var i := 0;
    warned := [];
    ghost var produced: seq<string> := [];
    var token, next := NextToken(line, 0);
    ghost var pending := Words(line);
    ghost var result := Fold(pending, env, MaxCommandLineArgs - 1, [], []);
    FoldIsExpand(pending, env, MaxCommandLineArgs - 1, [], []);
    while token.Some? && i < MaxCommandLineArgs - 1
      invariant i <= MaxCommandLineArgs - 1 && next <= |line|
      invariant token.Some? ==> IsToken(token.value)
      invariant token.None? ==> pending == []
      invariant token.Some? ==> pending == [token.value] + WordsFrom(line, next)
      invariant |produced| == i
      invariant Fold(pending, env, MaxCommandLineArgs - 1 - i, produced, warned) == result
      invariant forall k :: 0 <= k < i ==> arguments[k] == Some(produced[k])
      decreases |pending|
    {
      ghost var rest := WordsFrom(line, next);
      i, warned, produced := TakeToken(token.value, env, arguments, i, warned, rest, produced, result);
      token, next := NextToken(line, next);
      pending := rest;
    }
    arguments[i] := None;
    count := i;
  }
}
