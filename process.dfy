/** Values shared by every script: an optional value and the captured result
    of one run of an external `az` command. */
module Process {

  datatype Option<+T> = None | Some(value: T)

  /** One run of an external process: its exit status and its raw
      (undecoded, unstripped) standard output and standard error. */
  datatype Attempt = Attempt(code: int, stdout: string, stderr: string)
}
