/** The world the workflow runs in: lines typed at the terminal, the git
    executable, and the record of everything that happened. git is a scripted
    oracle: the n-th command issued (counting from 0) gets the reply `git(n)`. */
module Session {
  import opened Shell
  import opened UrlTip

  /** The questions the workflow asks with `input()`. */
  datatype Prompt =
    | CloneRepo             // "No Git repo found. Clone one? [y/n]"
    | CloneUrl              // "Enter remote repo URL"
    | InitRepo              // "Initialize a new Git repo here? [y/n]"
    | RemoteAction          // "[k]eep / [c]hange / [p]ull / [u]push"
    | PullBranch            // "Branch to pull (default: main)"
    | ResolveChoice         // "[c]ommit, [s]tash, or [a]bort?"
    | CommitMessage         // "Commit message" (when resolving staged changes)
    | RemoteUrl             // "Enter new remote URL (SSH or HTTPS)"
    | InitialCommitMessage  // "Commit message [default: Initial commit]"
    | PushBranch            // "Branch name to push (default: main)"
    | ConfirmPush           // "Do you want to push to origin/<branch>? [y/n]"

  /** What can be observed of a run: a question answered, a git command
      issued together with the reply it got, a URL tip printed. */
  datatype Event =
    | Asked(prompt: Prompt, answer: string)
    | Ran(cmd: Command, reply: Reply)
    | Tipped(tip: Tip)

  type Git = nat -> Reply

  /** The lines of standard input not read yet, the number of git commands
      issued so far, and the events so far. */
  datatype World = World(stdin: seq<string>, issued: nat, trace: seq<Event>)

  /** A value together with the world after computing it. */
  datatype After<+T> = After(value: T, w: World)

  /** `input()` answered with the next line of standard input. */
  function Read(w: World, p: Prompt): (w': World)
    requires w.stdin != []
    ensures w'.stdin == w.stdin[1..] && w'.issued == w.issued
    ensures w'.trace == w.trace + [Asked(p, w.stdin[0])]
  {
    World(w.stdin[1..], w.issued, w.trace + [Asked(p, w.stdin[0])])
  }

  /** `run_git_command(argv, check)`: the command is issued and gets the
      oracle's next reply; with `check` a non-zero exit status raises
      `CalledProcessError`. A plain `subprocess.run` is the `check=False` case. */
  function Call(w: World, git: Git, cmd: Command, check: bool): (r: After<Result<Reply>>)
    ensures r.w.stdin == w.stdin && r.w.issued == w.issued + 1
    ensures r.w.trace == w.trace + [Ran(cmd, git(w.issued))]
    ensures r.value.Err? <==> check && git(w.issued).code != 0
    ensures r.value.Ok? ==> r.value.value == git(w.issued)
    ensures r.value.Err? ==> r.value.error == CalledProcessError(git(w.issued).code)
  {
    var reply := git(w.issued);
    var value := if check && reply.code != 0 then Err(CalledProcessError(reply.code)) else Ok(reply);
    After(value, World(w.stdin, w.issued + 1, w.trace + [Ran(cmd, reply)]))
  }

  /** `show_git_url_tip(url)`: prints a tip, or nothing. */
  function ShowTip(w: World, url: string): (w': World)
    ensures w'.stdin == w.stdin && w'.issued == w.issued
    ensures w'.trace == w.trace + (match GitUrlTip(url) case Some(t) => [Tipped(t)] case None => [])
  {
    match GitUrlTip(url)
    case Some(t) => w.(trace := w.trace + [Tipped(t)])
    case None => w
  }

  /** The terminal and the git executable as the script sees them: what is
      left to read, how many commands were issued, and the record so far. */
  class Host {
    var w: World
    const git: Git

    constructor (stdin: seq<string>, git: Git)
      ensures w == World(stdin, 0, []) && this.git == git
    {
      this.w := World(stdin, 0, []);
      this.git := git;
    }

    /** `input(prompt)`: `None` is end of input, where Python raises `EOFError`. */
    method Input(p: Prompt) returns (line: Option<string>)
      modifies this
      ensures old(w.stdin) == [] ==> line == None && w == old(w)
      ensures old(w.stdin) != [] ==> line == Some(old(w.stdin)[0]) && w == Read(old(w), p)
    {
      if w.stdin == [] {
        return None;
      }
      line := Some(w.stdin[0]);
      w := World(w.stdin[1..], w.issued, w.trace + [Asked(p, w.stdin[0])]);
    }

    /** `run_git_command(ArgvOf(cmd), check=check)` */
    method RunGitCommand(cmd: Command, check: bool) returns (r: Result<Reply>)
      modifies this
      ensures After(r, w) == Call(old(w), git, cmd, check)
    {
      var reply := git(w.issued);
      w := World(w.stdin, w.issued + 1, w.trace + [Ran(cmd, reply)]);
      if check && reply.code != 0 {
        return Err(CalledProcessError(reply.code));
      }
      return Ok(reply);
    }

    /** `show_git_url_tip(url)` */
    method ShowGitUrlTip(url: string)
      modifies this
      ensures w == ShowTip(old(w), url)
    {
      var tip := GitUrlTip(url);
      if tip.Some? {
        w := w.(trace := w.trace + [Tipped(tip.value)]);
      }
    }
  }
}
