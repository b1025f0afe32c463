/** The status a child process exits with when it cannot run its program
    (the code after each `execvp` in shell.c). */
module Launch {

  /** errno value for "no such file or directory". */
  const ENOENT: int := 2

  /** Which child failed to exec: the child of a single command
      (`execute_single_command`) or one side of a pipeline (`execute_pipe`). */
  datatype Stage = SingleCommand | PipeWriter | PipeReader

  /** Exit status of a child whose `execvp` returned with `errno`: a single
      command reports 127 for a program that does not exist and 1 for any
      other failure; both sides of a pipeline always report 1. `errno` is the
      value the single-command child reads after `perror` has reported the
      failure; the C standard does not promise that `perror` leaves it as
      `execvp` set it, so the 127 rule assumes that it does. */
  function ExecFailureStatus(stage: Stage, errno: int): (status: int)
    ensures status == 1 || status == 127
    ensures status == 127 <==> stage == SingleCommand && errno == ENOENT
  {
    match stage
    case SingleCommand => if errno == ENOENT then 127 else 1
    case PipeWriter => 1
    case PipeReader => 1
  }
}
