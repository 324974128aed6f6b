/** `confirm_commit_or_stash`: asked when staged changes are not committed,
    it reads answers until one of them is `c`, `s` or `a`. */
module Resolve {
  import opened Shell
  import opened Text
  import opened Session

  const WipMessage := "WIP commit"

  /** The answers the loop accepts (after `strip().lower()`). */
  predicate Valid(answer: string)
  {
    var choice := Normalize(answer);
    choice == "c" || choice == "s" || choice == "a"
  }

  /** The position of the first accepted answer, if any. */
  function FirstValid(answers: seq<string>): (r: Option<nat>)
    ensures r.Some? ==> r.value < |answers| && Valid(answers[r.value])
    ensures r.Some? ==> forall j :: 0 <= j < r.value ==> !Valid(answers[j])
    ensures r.None? ==> forall j :: 0 <= j < |answers| ==> !Valid(answers[j])
    decreases |answers|
  {
    if answers == [] then None
    else if Valid(answers[0]) then Some(0)
    else match FirstValid(answers[1..])
      case None => None
      case Some(i) => Some(i + 1)
  }

  /** Issues `cmd` (with `check=True`) and answers true unless it failed. */
  function Finish(w: World, git: Git, cmd: Command): (r: After<Result<bool>>)
    ensures r.value == if git(w.issued).code != 0 then Err(CalledProcessError(git(w.issued).code)) else Ok(true)
    ensures r.w == Call(w, git, cmd, true).w
  {
    var c := Call(w, git, cmd, true);
    After(if c.value.Err? then Err(c.value.error) else Ok(true), c.w)
  }

  /** What an accepted answer `choice` leads to, once it has been read: `c`
      asks for a message (blank means "WIP commit") and commits, `s` stashes,
      `a` answers false. Running out of input raises `EOFError`; a failing
      commit or stash raises `CalledProcessError`. */
  function Decide(w: World, git: Git, choice: string): (r: After<Result<bool>>)
  {
    if choice == "c" then
      if w.stdin == [] then After(Err(EOFError), w)
      else Finish(Read(w, CommitMessage), git, Commit(OrDefault(Strip(w.stdin[0]), WipMessage)))
    else if choice == "s" then Finish(w, git, Stash)
    else After(Ok(false), w)
  }

  /** The loop, one answer at a time: an accepted answer is decided, anything
      else is asked again. Running out of input raises `EOFError`. */
  function Resolve(w: World, git: Git): (r: After<Result<bool>>)
    decreases |w.stdin|
  {
    if w.stdin == [] then After(Err(EOFError), w)
    else if Valid(w.stdin[0]) then Decide(Read(w, ResolveChoice), git, Normalize(w.stdin[0]))
    else Resolve(Read(w, ResolveChoice), git)
  }

  /** The events of answering `answers` to the same prompt. */
  function AskedAll(p: Prompt, answers: seq<string>): (events: seq<Event>)
    ensures |events| == |answers|
    ensures forall j :: 0 <= j < |answers| ==> events[j] == Asked(p, answers[j])
  {
    seq(|answers|, j requires 0 <= j < |answers| => Asked(p, answers[j]))
  }

  /** The world once the first `n` answers have been read at the choice prompt. */
  function Skip(w: World, n: nat): World
    requires n <= |w.stdin|
  {
    World(w.stdin[n..], w.issued, w.trace + AskedAll(ResolveChoice, w.stdin[..n]))
  }

  /** The same behaviour stated without the loop: everything turns on the first
      accepted answer, every answer before it is only recorded. */
  function ResolveByFirstValid(w: World, git: Git): After<Result<bool>>
  {
    match FirstValid(w.stdin)
    case None => After(Err(EOFError), Skip(w, |w.stdin|))
    case Some(i) => Decide(Skip(w, i + 1), git, Normalize(w.stdin[i]))
  }

  lemma SkipOneMore(w: World, n: nat)
    requires 0 < n <= |w.stdin|
    ensures Skip(Read(w, ResolveChoice), n - 1) == Skip(w, n)
  {
    var w1 := Read(w, ResolveChoice);
    assert w1.stdin[n - 1..] == w.stdin[n..];
    var a1 := AskedAll(ResolveChoice, w1.stdin[..n - 1]);
    var a := AskedAll(ResolveChoice, w.stdin[..n]);
    assert a == [Asked(ResolveChoice, w.stdin[0])] + a1;
    assert w1.trace + a1 == w.trace + a;
  }

  /** Reading rejected answers first changes nothing but the record. */
  lemma {:induction false} SkipRejected(w: World, git: Git, n: nat)
    requires n <= |w.stdin|
    requires forall j :: 0 <= j < n ==> !Valid(w.stdin[j])
    ensures Resolve(w, git) == Resolve(Skip(w, n), git)
    decreases n
  {
    if n > 0 {
      var w1 := Read(w, ResolveChoice);
      assert w1.stdin == w.stdin[1..];
      SkipRejected(w1, git, n - 1);
      SkipOneMore(w, n);
    } else {
      assert w.stdin[0..] == w.stdin && w.trace + AskedAll(ResolveChoice, w.stdin[..0]) == w.trace;
    }
  }

  /** Once the rejected answers before it are skipped, the first accepted
      answer is decided on. */
  lemma DecidesFirstValid(w: World, git: Git, i: nat)
    requires FirstValid(w.stdin) == Some(i)
    ensures Resolve(w, git) == Decide(Skip(w, i + 1), git, Normalize(w.stdin[i]))
  {
    SkipRejected(w, git, i);
    var wi := Skip(w, i);
    assert wi.stdin[0] == w.stdin[i];
    SkipThenRead(w, i);
    assert Resolve(wi, git) == Decide(Read(wi, ResolveChoice), git, Normalize(wi.stdin[0]));
  }

  /** Reading one more answer after skipping `i` is skipping `i + 1`. */
  lemma SkipThenRead(w: World, i: nat)
    requires i < |w.stdin|
    ensures Read(Skip(w, i), ResolveChoice) == Skip(w, i + 1)
  {
    var wi := Skip(w, i);
    SkipOneMore(wi, 1);
    assert wi.stdin[1..] == w.stdin[i + 1..];
    var a := AskedAll(ResolveChoice, w.stdin[..i + 1]);
    assert a == AskedAll(ResolveChoice, w.stdin[..i]) + [Asked(ResolveChoice, w.stdin[i])];
  }

  /** The loop and the first-accepted-answer description agree on every input. */
  lemma ResolveMatchesFirstValid(w: World, git: Git)
    ensures Resolve(w, git) == ResolveByFirstValid(w, git)
  {
    match FirstValid(w.stdin)
    case None =>
      SkipRejected(w, git, |w.stdin|);
    case Some(i) =>
      DecidesFirstValid(w, git, i);
  }

  /** The resolver answers false exactly when the first accepted answer is `a`,
      and true only when it is `c` or `s`; when that command succeeds (and, for
      `c`, a message line follows) it does answer true. */
  lemma ResolveAnswer(w: World, git: Git)
    ensures Resolve(w, git).value == Ok(false) <==>
              FirstValid(w.stdin).Some? && Normalize(w.stdin[FirstValid(w.stdin).value]) == "a"
    ensures Resolve(w, git).value == Ok(true) <==>
              && FirstValid(w.stdin).Some?
              && var i := FirstValid(w.stdin).value;
                 || (Normalize(w.stdin[i]) == "s" && git(w.issued).code == 0)
                 || (Normalize(w.stdin[i]) == "c" && i + 1 < |w.stdin| && git(w.issued).code == 0)
  {
    ResolveMatchesFirstValid(w, git);
  }

  /** What an accepted answer records: nothing more for `a`, exactly
      `git stash` for `s`, and for `c` the message answer and exactly
      `git commit -m <message>`, the message being "WIP commit" when the
      answer is blank. */
  lemma DecideEvents(w: World, git: Git, choice: string)
    requires choice == "c" || choice == "s" || choice == "a"
    ensures var r := Decide(w, git, choice);
      && (choice == "a" ==> r.w == w)
      && (choice == "s" ==> r.w.trace == w.trace + [Ran(Stash, git(w.issued))])
      && (choice == "c" && w.stdin != [] ==>
            var msg := OrDefault(Strip(w.stdin[0]), WipMessage);
            r.w.trace == w.trace + [Asked(CommitMessage, w.stdin[0]), Ran(Commit(msg), git(w.issued))])
      && (choice == "c" && w.stdin == [] ==> r.w == w && r.value == Err(EOFError))
  {
  }

  /** What the resolver records: every answer up to the first accepted one,
      then what that answer records. Rejected answers issue nothing. */
  lemma ResolveEvents(w: World, git: Git)
    ensures var r := Resolve(w, git);
      match FirstValid(w.stdin)
      case None =>
        && r.w.trace == w.trace + AskedAll(ResolveChoice, w.stdin) && r.w.issued == w.issued
        && r.value == Err(EOFError)
      case Some(i) =>
        var asked := w.trace + AskedAll(ResolveChoice, w.stdin[..i + 1]);
        var choice := Normalize(w.stdin[i]);
        && (choice == "a" ==> r.w.trace == asked && r.w.issued == w.issued)
        && (choice == "s" ==> r.w.trace == asked + [Ran(Stash, git(w.issued))])
        && (choice == "c" && i + 1 < |w.stdin| ==>
              var msg := OrDefault(Strip(w.stdin[i + 1]), WipMessage);
              r.w.trace == asked + [Asked(CommitMessage, w.stdin[i + 1]), Ran(Commit(msg), git(w.issued))])
        && (choice == "c" && i + 1 == |w.stdin| ==> r.w.trace == asked && r.value == Err(EOFError))
  {
    ResolveMatchesFirstValid(w, git);
    match FirstValid(w.stdin)
    case None =>
      assert w.stdin[..|w.stdin|] == w.stdin;
    case Some(i) =>
      var w1 := Skip(w, i + 1);
      DecideEvents(w1, git, Normalize(w.stdin[i]));
      assert w1.stdin != [] ==> w1.stdin[0] == w.stdin[i + 1];
  }

  /** `confirm_commit_or_stash()` */
  method ConfirmCommitOrStash(h: Host) returns (r: Result<bool>)
    modifies h
    ensures After(r, h.w) == Resolve(old(h.w), h.git)
  {
    while true
      invariant Resolve(h.w, h.git) == Resolve(old(h.w), h.git)
      decreases |h.w.stdin|
    {
      var line := h.Input(ResolveChoice);
      if line.None? {
        return Err(EOFError);
      }
      var choice := Normalize(line.value);
      if choice == "c" {
        var answer := h.Input(CommitMessage);
        if answer.None? {
          return Err(EOFError);
        }
        var msg := OrDefault(Strip(answer.value), WipMessage);
        var c := h.RunGitCommand(Commit(msg), true);
        if c.Err? {
          return Err(c.error);
        }
        return Ok(true);
      } else if choice == "s" {
        var c := h.RunGitCommand(Stash, true);
        if c.Err? {
          return Err(c.error);
        }
        return Ok(true);
      } else if choice == "a" {
        return Ok(false);
      }
    }
  }
}
