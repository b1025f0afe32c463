# quash front end in Dafny

A model of the part of the quash shell (`shell.c`) that turns one input
line into a decision. The model covers these steps:

- The line is cut at its newline, or at a NUL character, where the C string
  functions stop. A line read at the end of input, with no final newline, is
  discarded.
- `tokenize` splits it on spaces, tabs, carriage returns and newlines, as
  `strtok` does. Each `$NAME` token becomes the variable's value, or a
  warning when the variable is unset. At most 127 arguments are stored,
  followed by a NULL sentinel.
- A trailing `&` is stripped, which marks the command for the background.
- `execute_builtin` recognises `exit`, `pwd`, `cd`, `echo`, `env` and `setenv`.
  It decides which target `cd` uses and checks that `setenv` has exactly two
  arguments. For `echo` it gives the exact characters written.
- Otherwise `find_pipe` looks for the first `|`. When the first `|` comes
  after the first argument, it splits the command into two freshly built
  vectors. When the right side is empty, the line is rejected as an invalid
  pipe.
- Everything else runs as a single command.

The model also covers the exit status of a child whose `execvp` fails.

Modules:

- `Argv` models the NULL-terminated `char *arguments[]` arrays as
  `array<Option<string>>`, with `None` for NULL. `HoldsArgv(a, args)` says
  that the array holds the strings `args` followed by the sentinel.
- `Tokenizer` contains three parts:
  - a reference definition of the words of a line (`WordsFrom`, `Words`);
  - the capped expansion (`Expand`, `Unset`, with the uncapped `ExpandAll`);
  - the imperative `strtok` step (`NextToken`) and the `tokenize` loop
    (`Tokenize`), proved against those functions.
- `Builtins` contains `BuiltinFor`, the specification of `execute_builtin`.
  The method `ExecuteBuiltin` and the `echo` loop (`EchoOutput`) are proved
  against it.
- `Dispatch` contains `Classify`, the specification of one pass of `main`.
  The array code of `main` is proved against it:
  - `StripBackground`;
  - `FindPipe`;
  - `SplitAtPipe`;
  - `RunExternal`;
  - `Dispatch`.

  `FrontEnd` composes `TrimLine`, `Tokenize` and `Dispatch`.
- `Launch` gives the status of a child whose `execvp` failed.

Some behaviour of the code is easy to miss; the model follows it:

- Both children of a pipeline exit with status 1 when `execvp` fails, even
  when the program does not exist (shell.c lines 172 and 189). Only a
  single command reports 127.
- A `|` in first position does not make a pipeline (`pipe_index > 0`). The
  whole vector, `|` included, is handed to single-command execution rather
  than being rejected.
- A lone `&` leaves an empty vector. That vector is neither a built-in nor a
  pipe, so it is handed to single-command execution with background set
  (`Dispatch.LoneAmpersand`).
- A `|` together with a trailing `&` is still run as a pipeline. The
  decision records the background flag, but `execute_pipe` ignores it.

## Model

| member | source | states |
|---|---|---|
| Tokenizer.Tokenize | project-1--create-a-simple-shell--quash-/shell.c:51-74 | the argument count is at most 127 and is the length of the capped expansion of the line's words; the array holds exactly those arguments, in order, followed by the NULL sentinel; the warnings are exactly the unset variable names among the tokens consumed before the cap |
| Tokenizer.TakeToken | project-1--create-a-simple-shell--quash-/shell.c:56-68 | one iteration of the loop stores at most one argument, keeps the stored prefix, and leaves the fold of the remaining tokens with the same final result |
| Tokenizer.NextToken | project-1--create-a-simple-shell--quash-/shell.c:53-70 | one strtok call returns NULL exactly when no word is left; otherwise it returns the first remaining word, which is a non-empty delimiter-free token, and resumes where the rest of the words begin |
| Tokenizer.RunEndMaximal | project-1--create-a-simple-shell--quash-/shell.c:18 | a token runs up to the first delimiter or the end of the line and contains no delimiter |
| Tokenizer.WordsAreTokens | project-1--create-a-simple-shell--quash-/shell.c:53-70 | every word strtok yields is non-empty and free of space, tab, carriage return and newline |
| Tokenizer.WordsKeepCharacters | project-1--create-a-simple-shell--quash-/shell.c:53-70 | the words, concatenated, are exactly the non-delimiter characters of the line, in order: splitting drops only delimiters |
| Tokenizer.WordsSkipDelimiter | project-1--create-a-simple-shell--quash-/shell.c:53 | leading delimiters yield no word |
| Tokenizer.WordsAfterToken | project-1--create-a-simple-shell--quash-/shell.c:53-70 | a token followed by a delimiter is the first word, and the remaining words are those of the rest of the line |
| Tokenizer.WordsOfToken | project-1--create-a-simple-shell--quash-/shell.c:53-70 | a line that is a single token splits into exactly that token |
| Tokenizer.BlankHasNoWords | project-1--create-a-simple-shell--quash-/shell.c:53 | a line holding only delimiters has no words (strtok returns NULL at once) |
| Tokenizer.Expand | project-1--create-a-simple-shell--quash-/shell.c:55 | never more arguments than the room left |
| Tokenizer.ExpandIsPrefix | project-1--create-a-simple-shell--quash-/shell.c:55 | the cap only truncates: the stored arguments are the first min(room, n) arguments of the uncapped expansion |
| Tokenizer.ExpandAllAppend | project-1--create-a-simple-shell--quash-/shell.c:55-71 | expansion works token by token and distributes over concatenation |
| Tokenizer.ExpandVariable | project-1--create-a-simple-shell--quash-/shell.c:56-65 | a set `$NAME` stores exactly its value as one argument, without splitting it, and uses one slot; an unset one, and a bare `$` (getenv never finds the empty name), stores nothing, not even an empty argument, uses no slot and is warned about |
| Tokenizer.ExpandAllLiterals | project-1--create-a-simple-shell--quash-/shell.c:66-68 | tokens not starting with `$` are stored unchanged |
| Tokenizer.ArgumentOrWarning | project-1--create-a-simple-shell--quash-/shell.c:55-71 | each token consumed gives exactly one argument or one warning; when the cap is not reached, every token is consumed |
| Tokenizer.FoldIsExpand | project-1--create-a-simple-shell--quash-/shell.c:55-71 | running the loop from any point appends the capped expansion and the warnings of the remaining tokens to what was produced so far |
| Builtins.BuiltinFor | project-1--create-a-simple-shell--quash-/shell.c:88-132 | a vector is a built-in exactly when it is non-empty and its first word is one of exit, pwd, cd, echo, env, setenv |
| Builtins.ExecuteBuiltin | project-1--create-a-simple-shell--quash-/shell.c:88-132 | on the array, returns exactly the built-in (or none) that `BuiltinFor` assigns to the vector and environment |
| Builtins.EchoOutput | project-1--create-a-simple-shell--quash-/shell.c:112-115 | the loop writes the arguments after `echo` separated by single spaces, with no trailing space, then a newline |
| Builtins.JoinSpacesSnoc | project-1--create-a-simple-shell--quash-/shell.c:112-114 | appending a word to the echoed words puts exactly one space before it |
| Builtins.WordsOfJoin | project-1--create-a-simple-shell--quash-/shell.c:112-115 | splitting the echoed line again gives back exactly the words echoed, when they are tokens |
| Builtins.EchoRoundTrip | project-1--create-a-simple-shell--quash-/shell.c:111-116 | `echo` round trip: the words of what `echo` prints are exactly its arguments when each is a token (an expanded variable may be empty or hold a delimiter) |
| Builtins.CdTarget | project-1--create-a-simple-shell--quash-/shell.c:101-110 | `cd DIR` targets DIR whatever follows; `cd` alone targets HOME, or only reports an error when HOME is unset |
| Builtins.SetEnvArity | project-1--create-a-simple-shell--quash-/shell.c:122-130 | `setenv` calls the library's setenv if and only if it has exactly two arguments, and then asks to set the first to the second; with any other number of arguments it only prints its usage (`SetEnvUsage`) |
| Builtins.EnvAfter | project-1--create-a-simple-shell--quash-/shell.c:126 | after `setenv NAME VALUE` with a name setenv accepts (non-empty, no `=`), NAME holds VALUE (overwriting); a rejected name changes nothing; every other variable keeps its value and none is added |
| Builtins.SetEnvThenExpand | project-1--create-a-simple-shell--quash-/shell.c:56-62 | after `setenv NAME VALUE`, the token `$NAME` expands to VALUE when setenv accepts NAME, and as before when it rejects it |
| Launch.ExecFailureStatus | project-1--create-a-simple-shell--quash-/shell.c:220-224 | a failed exec exits 1 or 127, and 127 exactly for a single command whose program does not exist (a pipeline child always exits 1) |
| Dispatch.CommandPart | project-1--create-a-simple-shell--quash-/shell.c:310-315 | a trailing `&` is removed and the rest is kept; without one the vector is unchanged |
| Dispatch.StripBackground | project-1--create-a-simple-shell--quash-/shell.c:310-315 | the background flag is set exactly when the last argument is `&`; that slot becomes the sentinel, the count drops by one, and no other slot changes |
| Dispatch.AmpersandOnlyAtEnd | project-1--create-a-simple-shell--quash-/shell.c:311 | only a final `&` is special: one that is not last stays an argument |
| Dispatch.LoneAmpersand | project-1--create-a-simple-shell--quash-/shell.c:310-345 | a line consisting of `&` alone runs an empty command in the background |
| Dispatch.PipeIndex | project-1--create-a-simple-shell--quash-/shell.c:136-143 | -1 exactly when there is no `|`; otherwise the index of a `|` with none before it |
| Dispatch.FindPipe | project-1--create-a-simple-shell--quash-/shell.c:136-143 | the scan up to the sentinel returns the index of the first `|`, or -1 |
| Dispatch.SplitAtPipe | project-1--create-a-simple-shell--quash-/shell.c:325-335 | two fresh vectors: the first holds the arguments before the `|`, the second those after it up to the sentinel, each followed by NULL |
| Dispatch.PipeSplits | project-1--create-a-simple-shell--quash-/shell.c:323-341 | a pipeline's two sides are non-empty, the left holds no `|`, and left + `|` + right is the command; it is never a built-in |
| Dispatch.PipeFromSplit | project-1--create-a-simple-shell--quash-/shell.c:323-341 | conversely, every non-built-in command of the form left `|` right (with an optional `&`) runs as exactly that pipeline |
| Dispatch.InvalidPipeExactly | project-1--create-a-simple-shell--quash-/shell.c:337-338 | "Invalid pipe command format" is reported exactly when the first `|` comes after the first argument and is the last argument |
| Dispatch.SingleExactly | project-1--create-a-simple-shell--quash-/shell.c:343-346 | a non-built-in command runs as a single command exactly when its first `|` is not after its first argument (there is none, or it is the first argument), and then with its whole vector |
| Dispatch.LeadingPipeRunsWhole | project-1--create-a-simple-shell--quash-/shell.c:323-345 | the four words pipe, a, pipe, b run as one command with the whole vector: only the first pipe symbol is looked at, and it leads the command |
| Dispatch.BuiltinsBeforePipes | project-1--create-a-simple-shell--quash-/shell.c:317-320 | a command naming a built-in runs as that built-in even if it contains `|` |
| Dispatch.RunExternal | project-1--create-a-simple-shell--quash-/shell.c:323-346 | the array code after the built-in test reaches exactly the pipeline, invalid-pipe or single-command decision `Route` assigns to the command |
| Dispatch.Dispatch | project-1--create-a-simple-shell--quash-/shell.c:307-346 | for a tokenized vector, main reaches exactly the decision `Classify` assigns to it; a trailing `&` slot becomes the NULL sentinel and no other slot changes |
| Dispatch.TrimLine | project-1--create-a-simple-shell--quash-/shell.c:301-305 | the text tokenized is the longest prefix of the line holding no newline and no NUL: it is followed in the line by a newline, a NUL or the end |
| Dispatch.TextAfterLineEndIgnored | project-1--create-a-simple-shell--quash-/shell.c:301-305 | whatever follows the first newline or NUL of a line is ignored |
| Dispatch.FrontEnd | project-1--create-a-simple-shell--quash-/shell.c:299-346 | a line read at the end of input is discarded with no warning; any other line reaches the decision for the capped expansion of the words of the line up to its newline or NUL, and warns exactly about the unset variables among the tokens read before the cap of 127 arguments |
| Dispatch.BlankLineSkipped | project-1--create-a-simple-shell--quash-/shell.c:305-307 | a line of only spaces, tabs, carriage returns, newlines and NULs is skipped |

## Left out

- Process creation and plumbing are not modelled: `fork`, `execvp`, `pipe`,
  `dup2` and `waitpid` in `execute_pipe` and `execute_single_command`
  (shell.c lines 145-258). Only the exit status after a failed `execvp` is
  modelled.
- Signals are not modelled: the SIGINT and SIGALRM handlers, the 10-second
  foreground timeout, `kill`, and the EINTR retry (lines 34-48, 234-258 and
  269-276). These are asynchronous process behaviour.
- The background reaping sweep (`waitpid(-1, …, WNOHANG)`) is not modelled.
- The prompt, the `fgets` loop and end of input (lines 77-86 and 278-298)
  are not modelled. Whether `fgets` hit the end of input is a parameter of
  `FrontEnd`. A line beginning with a newline makes the C code prompt again;
  the model skips it, since it has no words. An interrupted read (EINTR,
  line 298) is not modelled.
- The 1024-character line limit of `fgets` is not modelled. A longer line
  is read in pieces by the C code; the model takes the line whole.
- `getenv` is modelled by an environment map passed as a parameter.
  `setenv` is modelled by `EnvAfter` on that map, including its refusal of
  an empty name or one containing `=`. A name containing `=` given to
  `getenv` (through `$A=B`) is looked up as a key of the map, whereas the C
  library may match the variable `A` whose value begins with `B=`.
- The effects of `pwd`, `cd`, `env` and `exit` are recorded as a `Builtin`
  value. The working directory, the printing of `environ` in its own order,
  and the process exit are not performed.
- The warning text and the messages written to stderr are reduced to the
  list of unset names and the `InvalidPipe`, `CdHomeUnset` and `SetEnvUsage`
  outcomes.
- Tokenize: does not state that array slots after the NULL sentinel are
  left unchanged. Only the vector up to the sentinel is specified.
- strtok writes NUL bytes into the copy of the line. The model works on the
  immutable line and takes slices instead, so aliasing of `arguments` into
  `cmd_copy` is not captured.
- Launch.ExecFailureStatus: takes `errno` as `execvp` left it. The C code
  reads it after `perror` (line 224 after line 223), and the C standard does
  not promise that `perror` keeps it.
