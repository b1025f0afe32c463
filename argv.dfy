/** NULL-terminated argument vectors, the form in which `main`, `tokenize`,
    `execute_builtin` and `find_pipe` pass a command line around. */
module Argv {

  /** One slot of a `char *` array: `None` is the NULL pointer. */
  datatype Option<+T> = None | Some(value: T)

  /** Capacity of every argument array of the shell (MAX_COMMAND_LINE_ARGS). */
  const MaxCommandLineArgs: nat := 128

  /** Array `a` holds the strings `args` in its first slots, followed by the
      NULL sentinel; what lies beyond the sentinel is not part of the vector. */
  ghost predicate HoldsArgv(a: array<Option<string>>, args: seq<string>)
    reads a
  {
    |args| < a.Length && a[|args|] == None &&
    forall k :: 0 <= k < |args| ==> a[k] == Some(args[k])
  }

  /** The strings held by a run of slots (a NULL slot reads as ""). */
  function Strings(slots: seq<Option<string>>): seq<string>
  {
    seq(|slots|, k requires 0 <= k < |slots| => if slots[k].Some? then slots[k].value else "")
  }

  lemma StringsOfArgv(a: array<Option<string>>, args: seq<string>)
    requires HoldsArgv(a, args)
    ensures Strings(a[..|args|]) == args
  {
  }
}
