/** What the workflow sees of a process it starts, and the exceptions that can
    escape from it. */
module Shell {

  /** An argument vector, as handed to `subprocess.run`. */
  type Argv = seq<string>

  /** The part of a `CompletedProcess` the workflow reads: the exit status and
      the captured standard output. */
  datatype Reply = Reply(code: int, stdout: string)

  /** The git command lines the workflow issues; `ArgvOf` spells each one out. */
  datatype Command =
    | RevParse | Init | Clone(url: string)
    | ListRemotes | GetOriginUrl | RemoveOrigin | AddOrigin(url: string)
    | LsRemote | AddAll | Log | Status | DiffCached | Stash
    | Commit(msg: string) | RenameBranch(branch: string)
    | PullRebase(branch: string) | Push(branch: string)

  function ArgvOf(c: Command): (argv: Argv)
  {
    match c
    case RevParse => ["git", "rev-parse", "--is-inside-work-tree"]
    case Init => ["git", "init", "--quiet"]
    case Clone(url) => ["git", "clone", url]
    case ListRemotes => ["git", "remote"]
    case GetOriginUrl => ["git", "remote", "get-url", "origin"]
    case RemoveOrigin => ["git", "remote", "remove", "origin"]
    case AddOrigin(url) => ["git", "remote", "add", "origin", url]
    case LsRemote => ["git", "ls-remote", "origin"]
    case AddAll => ["git", "add", "."]
    case Log => ["git", "log"]
    case Status => ["git", "status", "--porcelain"]
    case DiffCached => ["git", "diff", "--cached", "--name-only"]
    case Stash => ["git", "stash"]
    case Commit(msg) => ["git", "commit", "-m", msg]
    case RenameBranch(branch) => ["git", "branch", "-M", branch]
    case PullRebase(branch) => ["git", "pull", "--rebase", "origin", branch]
    case Push(branch) => ["git", "push", "-u", "origin", branch]
  }

  /** Different commands are never spelled the same way, so a record of
      commands is a record of argument vectors and back. */
  lemma ArgvOfInjective(a: Command, b: Command)
    ensures ArgvOf(a) == ArgvOf(b) ==> a == b
  {
  }

  /** The exceptions that can escape from the workflow. The command a
      `CalledProcessError` is about is the last one in the record. */
  datatype Exception =
    | CalledProcessError(returncode: int)  // `check=True` and a non-zero exit status
    | EOFError                                         // `input()` with standard input exhausted
    | IndexError                                       // `line[1]` on a one-character line

  datatype Option<+T> = None | Some(value: T)

  /** A value, or the exception raised while computing it. */
  datatype Result<+T> = Ok(value: T) | Err(error: Exception)
}
