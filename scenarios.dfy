/** Runs of `setup_git_remote` traced event by event: what is asked, which
    git commands are issued and in which order, and how the run ends. The
    replies of git are left open except where a run depends on them. */
module Scenarios {
  import opened Shell
  import opened Text
  import opened UrlTip
  import opened Session
  import opened Porcelain
  import opened Remote

  /** A clean tree: the status listing reports nothing and nothing is staged,
      so the safety checks issue just those two commands and let the
      workflow go on. */
  lemma CleanTreePasses(w: World, git: Git)
    requires git(w.issued).code == 0 && UnstagedOrUntracked(git(w.issued).stdout) == Ok(false)
    requires git(w.issued + 1).code == 0 && !AnyStaged(git(w.issued + 1).stdout)
    ensures SafetyChecks(w, git) ==
              After(None, World(w.stdin, w.issued + 2,
                                w.trace + [Ran(Status, git(w.issued)), Ran(DiffCached, git(w.issued + 1))]))
  {
  }

  /** A dirty tree stops the workflow right after the status listing: no
      further command, no question. */
  lemma DirtyTreeStops(w: World, git: Git)
    requires git(w.issued).code == 0 && UnstagedOrUntracked(git(w.issued).stdout) == Ok(true)
    ensures SafetyChecks(w, git) ==
              After(Some(Returned(DirtyTree)),
                    World(w.stdin, w.issued + 1, w.trace + [Ran(Status, git(w.issued))]))
  {
  }

  /** Outside a work tree, answering `y` to the clone question issues
      `git clone <url>` with the stripped URL and nothing else, and the run
      ends there, `Cloned` or with the clone's exception. */
  lemma CloneEndsTheRun(stdin: seq<string>, git: Git)
    requires git(0).code != 0 && |stdin| >= 2 && Normalize(stdin[0]) == "y"
    ensures var r := SetupRemote(World(stdin, 0, []), git);
      && r.w.trace == [Ran(RevParse, git(0)), Asked(CloneRepo, stdin[0]), Asked(CloneUrl, stdin[1]),
                       Ran(Clone(Strip(stdin[1])), git(1))]
      && r.value == if git(1).code == 0 then Returned(Cloned) else Raised(CalledProcessError(git(1).code))
  {
  }

  /** Outside a work tree, declining to clone and to init ends the run having
      issued only the read-only `git rev-parse`. */
  lemma DeclineBothIssuesNothing(stdin: seq<string>, git: Git)
    requires git(0).code != 0 && |stdin| >= 2 && Normalize(stdin[0]) != "y" && Normalize(stdin[1]) != "y"
    ensures SetupRemote(World(stdin, 0, []), git) ==
              After(Returned(Skipped), World(stdin[2..], 1,
                    [Ran(RevParse, git(0)), Asked(CloneRepo, stdin[0]), Asked(InitRepo, stdin[1])]))
  {
  }

  /** An action other than `k`, `c`, `p` and `u` ends the run once it is read. */
  lemma InvalidActionStops(w: World, git: Git)
    requires w.stdin != []
    requires Normalize(w.stdin[0]) !in {"k", "c", "p", "u"}
    ensures OriginAction(w, git) == After(Returned(InvalidAction), Read(w, RemoteAction))
  {
  }

  /** The pull action on a clean tree with a blank branch answer pulls
      `main`; a failing pull still ends as `Pulled`, not as an error. */
  lemma PullDefaultsToMain(w: World, git: Git)
    requires w.stdin != [] && Strip(w.stdin[0]) == []
    requires git(w.issued).code == 0 && UnstagedOrUntracked(git(w.issued).stdout) == Ok(false)
    requires git(w.issued + 1).code == 0 && !AnyStaged(git(w.issued + 1).stdout)
    ensures PullAction(w, git) ==
              After(Returned(Pulled), World(w.stdin[1..], w.issued + 3,
                    w.trace + [Asked(PullBranch, w.stdin[0]), Ran(Status, git(w.issued)),
                               Ran(DiffCached, git(w.issued + 1)), Ran(PullRebase("main"), git(w.issued + 2))]))
  {
    CleanTreePasses(Read(w, PullBranch), git);
  }

  /** The safety checks trust the classifier: when the status listing's only
      entry is an unstaged change (` Y path`, dirty as git wrote it), the
      whole-output strip hides it, and the pull action goes on to pull. */
  lemma PullOverUnstagedChange(w: World, git: Git, y: char, path: string)
    requires w.stdin != [] && Strip(w.stdin[0]) == []
    requires !IsSpace(y) && path != [] && !IsSpace(path[|path| - 1]) && NoLineBreak(path)
    requires git(w.issued) == Reply(0, [' ', y, ' '] + path)
    requires git(w.issued + 1).code == 0 && !AnyStaged(git(w.issued + 1).stdout)
    ensures Dirty([' ', y, ' '] + path)
    ensures PullAction(w, git) ==
              After(Returned(Pulled), World(w.stdin[1..], w.issued + 3,
                    w.trace + [Asked(PullBranch, w.stdin[0]), Ran(Status, git(w.issued)),
                               Ran(DiffCached, git(w.issued + 1)), Ran(PullRebase("main"), git(w.issued + 2))]))
  {
    UnstagedFirstLineMissed(y, path);
    PullDefaultsToMain(w, git);
  }

  /** A failing `git ls-remote origin` ends the run before `git add .`. */
  lemma UnreachableStopsBeforeAdd(w: World, git: Git)
    requires git(w.issued).code != 0
    ensures Publish(w, git) ==
              After(Returned(Unreachable), World(w.stdin, w.issued + 1, w.trace + [Ran(LsRemote, git(w.issued))]))
  {
  }

  /** When a first commit is needed, a blank answer commits with the message
      "Initial commit", and only after that commit succeeds do steps 7
      onwards begin. */
  lemma InitialCommitDefault(w: World, git: Git)
    requires w.stdin != [] && Strip(w.stdin[0]) == []
    ensures var after := World(w.stdin[1..], w.issued + 1,
                               w.trace + [Asked(InitialCommitMessage, w.stdin[0]),
                                          Ran(Commit("Initial commit"), git(w.issued))]);
      FirstCommit(w, git, true) ==
        if git(w.issued).code != 0 then After(Raised(CalledProcessError(git(w.issued).code)), after)
        else BranchAndPush(after, git)
  {
    var msg := OrDefault(Strip(w.stdin[0]), InitialMessage);
    assert msg == "Initial commit";
    var commit := Call(Read(w, InitialCommitMessage), git, Commit(msg), true);
    assert commit.w == World(w.stdin[1..], w.issued + 1,
                             w.trace + [Asked(InitialCommitMessage, w.stdin[0]), Ran(Commit("Initial commit"), git(w.issued))]);
  }

  /** A push that is not confirmed with `y` ends the run after the rename,
      which therefore comes before the confirmation. */
  lemma PushCancelledAfterRename(w: World, git: Git)
    requires |w.stdin| >= 2 && Normalize(w.stdin[1]) != "y" && git(w.issued).code == 0
    ensures var branch := OrDefault(Strip(w.stdin[0]), "main");
      BranchAndPush(w, git) ==
        After(Returned(PushCancelled), World(w.stdin[2..], w.issued + 1,
              w.trace + [Asked(PushBranch, w.stdin[0]), Ran(RenameBranch(branch), git(w.issued)),
                         Asked(ConfirmPush, w.stdin[1])]))
  {
  }

  /** A confirmed push on a clean tree with a blank branch answer: rename to
      `main`, confirm, check, pull, push, complete, in world `done`. Neither
      the pull's nor the push's exit status matters: a failing pull still
      pushes, and a failing push is reported and the summary still printed. */
  lemma ConfirmedPushOnCleanTree(w: World, git: Git, done: World)
    requires |w.stdin| >= 2 && Strip(w.stdin[0]) == [] && Normalize(w.stdin[1]) == "y"
    requires git(w.issued).code == 0
    requires git(w.issued + 1).code == 0 && UnstagedOrUntracked(git(w.issued + 1).stdout) == Ok(false)
    requires git(w.issued + 2).code == 0 && !AnyStaged(git(w.issued + 2).stdout)
    requires done == World(w.stdin[2..], w.issued + 5,
                           w.trace + [Asked(PushBranch, w.stdin[0]), Ran(RenameBranch("main"), git(w.issued)),
                                      Asked(ConfirmPush, w.stdin[1]),
                                      Ran(Status, git(w.issued + 1)), Ran(DiffCached, git(w.issued + 2)),
                                      Ran(PullRebase("main"), git(w.issued + 3)), Ran(Push("main"), git(w.issued + 4))])
    ensures BranchAndPush(w, git) == After(Completed, done)
  {
    var w0 := Read(w, PushBranch);
    var rename := Call(w0, git, RenameBranch("main"), true);
    CleanTreePasses(Read(rename.w, ConfirmPush), git);
  }

  /** With `origin` listed and its URL read, step 2 shows the URL's tip and
      asks for the action, in world `next`. */
  lemma ExistingOriginAsks(w: World, git: Git, tip: Tip, next: World)
    requires git(w.issued).code == 0 && HasOrigin(git(w.issued).stdout)
    requires git(w.issued + 1).code == 0 && GitUrlTip(Strip(git(w.issued + 1).stdout)) == Some(tip)
    requires next == World(w.stdin, w.issued + 2,
                           w.trace + [Ran(ListRemotes, git(w.issued)), Ran(GetOriginUrl, git(w.issued + 1)), Tipped(tip)])
    ensures Remotes(w, git) == OriginAction(next, git)
  {
    var list := Call(w, git, ListRemotes, true);
    var get := Call(list.w, git, GetOriginUrl, true);
    assert ShowTip(get.w, Strip(get.value.value.stdout)) == next;
  }

  /** When the repository already has commits, steps 4 to 6 issue the
      connection test, `git add .`, `git log` and the status listing, and go
      on to step 7, in world `next`, without asking anything. */
  lemma PublishWithCommits(w: World, git: Git, next: World)
    requires git(w.issued).code == 0 && git(w.issued + 2).code == 0 && git(w.issued + 3).code == 0
    requires next == World(w.stdin, w.issued + 4,
                           w.trace + [Ran(LsRemote, git(w.issued)), Ran(AddAll, git(w.issued + 1)),
                                      Ran(Log, git(w.issued + 2)), Ran(Status, git(w.issued + 3))])
    ensures Publish(w, git) == BranchAndPush(next, git)
  {
    var ls := Call(w, git, LsRemote, true);
    var add := Call(ls.w, git, AddAll, false);
    var log := Call(add.w, git, Log, false);
    var status := Call(log.w, git, Status, true);
    assert status.w == next;
    assert Publish(w, git) == FirstCommit(status.w, git, false);
  }

  /** Inside a work tree the run goes straight on to step 2, in world `next`. */
  lemma InsideWorkTree(w: World, git: Git, next: World)
    requires git(w.issued).code == 0
    requires next == World(w.stdin, w.issued + 1, w.trace + [Ran(RevParse, git(w.issued))])
    ensures SetupRemote(w, git) == Remotes(next, git)
  {
    assert Call(w, git, RevParse, false).w == next;
  }

  /** Keeping `origin` goes straight on to the connection test. */
  lemma KeepPublishes(w: World, git: Git, next: World)
    requires w.stdin != [] && Normalize(w.stdin[0]) == "k" && next == Read(w, RemoteAction)
    ensures OriginAction(w, git) == Publish(next, git)
  {
  }

  /** Choosing pull goes straight on to the branch question. */
  lemma PullPulls(w: World, git: Git, next: World)
    requires w.stdin != [] && Normalize(w.stdin[0]) == "p" && next == Read(w, RemoteAction)
    ensures OriginAction(w, git) == PullAction(next, git)
  {
  }

  /** The events of the keep-and-push run below, phase by phase. */
  function KeepAndPushTrace(stdin: seq<string>, git: Git): seq<Event>
    requires |stdin| == 3
  {
    // step 1, step 2 and the tip
    [Ran(RevParse, git(0)), Ran(ListRemotes, git(1)), Ran(GetOriginUrl, git(2)), Tipped(SshTip)]
    // keep
    + [Asked(RemoteAction, stdin[0])]
    // steps 4 to 6, no first commit
    + [Ran(LsRemote, git(3)), Ran(AddAll, git(4)), Ran(Log, git(5)), Ran(Status, git(6))]
    // steps 7 to 10
    + [Asked(PushBranch, stdin[1]), Ran(RenameBranch("main"), git(7)), Asked(ConfirmPush, stdin[2]),
       Ran(Status, git(8)), Ran(DiffCached, git(9)),
       Ran(PullRebase("main"), git(10)), Ran(Push("main"), git(11))]
  }

  /** The keep-and-push run from step 2 on, `git rev-parse` having succeeded. */
  lemma KeepAndPushFromStep2(stdin: seq<string>, git: Git)
    requires |stdin| == 3 && Normalize(stdin[0]) == "k" && Strip(stdin[1]) == [] && Normalize(stdin[2]) == "y"
    requires git(1).code == 0 && HasOrigin(git(1).stdout)
    requires git(2).code == 0 && GitUrlTip(Strip(git(2).stdout)) == Some(SshTip)
    requires git(3).code == 0 && git(5).code == 0 && git(6).code == 0 && git(7).code == 0
    requires git(8).code == 0 && UnstagedOrUntracked(git(8).stdout) == Ok(false)
    requires git(9).code == 0 && !AnyStaged(git(9).stdout)
    ensures Remotes(World(stdin, 1, [Ran(RevParse, git(0))]), git) ==
              After(Completed, World([], 12, KeepAndPushTrace(stdin, git)))
  {
    var w2 := World(stdin, 3, [Ran(RevParse, git(0)), Ran(ListRemotes, git(1)), Ran(GetOriginUrl, git(2)), Tipped(SshTip)]);
    ExistingOriginAsks(World(stdin, 1, [Ran(RevParse, git(0))]), git, SshTip, w2);
    var w3 := World(stdin[1..], 3, w2.trace + [Asked(RemoteAction, stdin[0])]);
    KeepPublishes(w2, git, w3);
    var w4 := World(stdin[1..], 7, w3.trace + [Ran(LsRemote, git(3)), Ran(AddAll, git(4)), Ran(Log, git(5)), Ran(Status, git(6))]);
    PublishWithCommits(w3, git, w4);
    assert w4.stdin[0] == stdin[1] && w4.stdin[1] == stdin[2] && w4.stdin[2..] == [];
    var done := World([], 12, w4.trace + [Asked(PushBranch, stdin[1]), Ran(RenameBranch("main"), git(7)),
                                          Asked(ConfirmPush, stdin[2]), Ran(Status, git(8)), Ran(DiffCached, git(9)),
                                          Ran(PullRebase("main"), git(10)), Ran(Push("main"), git(11))]);
    ConfirmedPushOnCleanTree(w4, git, done);
  }

  /** Inside a work tree with `origin` listed, keep it; the connection test
      succeeds, the repository has commits, the tree is clean, the branch
      answer is blank and the push is confirmed: the full sequence of events,
      ending with the summary for branch `main`. The pull's and the push's
      own exit statuses do not matter. */
  lemma KeepAndPushScenario(stdin: seq<string>, git: Git)
    requires |stdin| == 3 && Normalize(stdin[0]) == "k" && Strip(stdin[1]) == [] && Normalize(stdin[2]) == "y"
    requires git(0).code == 0
    requires git(1).code == 0 && HasOrigin(git(1).stdout)
    requires git(2).code == 0 && GitUrlTip(Strip(git(2).stdout)) == Some(SshTip)
    requires git(3).code == 0 && git(5).code == 0 && git(6).code == 0 && git(7).code == 0
    requires git(8).code == 0 && UnstagedOrUntracked(git(8).stdout) == Ok(false)
    requires git(9).code == 0 && !AnyStaged(git(9).stdout)
    ensures SetupRemote(World(stdin, 0, []), git) == After(Completed, World([], 12, KeepAndPushTrace(stdin, git)))
  {
    InsideWorkTree(World(stdin, 0, []), git, World(stdin, 1, [Ran(RevParse, git(0))]));
    KeepAndPushFromStep2(stdin, git);
  }

  /** The pull action on a dirty tree reads the branch, lists the status
      and stops, in world `done`. */
  lemma PullStopsOnDirtyTree(w: World, git: Git, done: World)
    requires w.stdin != []
    requires git(w.issued).code == 0 && UnstagedOrUntracked(git(w.issued).stdout) == Ok(true)
    requires done == World(w.stdin[1..], w.issued + 1, w.trace + [Asked(PullBranch, w.stdin[0]), Ran(Status, git(w.issued))])
    ensures PullAction(w, git) == After(Returned(DirtyTree), done)
  {
    DirtyTreeStops(Read(w, PullBranch), git);
  }

  /** The events of the refused pull below, phase by phase. */
  function PullRefusedTrace(stdin: seq<string>, git: Git): seq<Event>
    requires |stdin| == 2
  {
    // step 1, step 2 and the tip
    [Ran(RevParse, git(0)), Ran(ListRemotes, git(1)), Ran(GetOriginUrl, git(2)), Tipped(HttpsTip)]
    // pull
    + [Asked(RemoteAction, stdin[0])]
    // the branch, the status listing, stop
    + [Asked(PullBranch, stdin[1]), Ran(Status, git(3))]
  }

  /** The refused pull from step 2 on, `git rev-parse` having succeeded. */
  lemma PullRefusedFromStep2(stdin: seq<string>, git: Git)
    requires |stdin| == 2 && Normalize(stdin[0]) == "p"
    requires git(1).code == 0 && HasOrigin(git(1).stdout)
    requires git(2).code == 0 && GitUrlTip(Strip(git(2).stdout)) == Some(HttpsTip)
    requires git(3).code == 0 && UnstagedOrUntracked(git(3).stdout) == Ok(true)
    ensures Remotes(World(stdin, 1, [Ran(RevParse, git(0))]), git) ==
              After(Returned(DirtyTree), World([], 4, PullRefusedTrace(stdin, git)))
  {
    var w2 := World(stdin, 3, [Ran(RevParse, git(0)), Ran(ListRemotes, git(1)), Ran(GetOriginUrl, git(2)), Tipped(HttpsTip)]);
    ExistingOriginAsks(World(stdin, 1, [Ran(RevParse, git(0))]), git, HttpsTip, w2);
    var w3 := World(stdin[1..], 3, w2.trace + [Asked(RemoteAction, stdin[0])]);
    PullPulls(w2, git, w3);
    assert w3.stdin[1..] == [];
    PullStopsOnDirtyTree(w3, git, World([], 4, w3.trace + [Asked(PullBranch, stdin[1]), Ran(Status, git(3))]));
  }

  /** Inside a work tree with `origin` listed, choose pull while the status
      listing reports an untracked or unstaged file: the run stops after the
      status listing, before any pull. */
  lemma PullRefusedOnDirtyTree(stdin: seq<string>, git: Git)
    requires |stdin| == 2 && Normalize(stdin[0]) == "p"
    requires git(0).code == 0
    requires git(1).code == 0 && HasOrigin(git(1).stdout)
    requires git(2).code == 0 && GitUrlTip(Strip(git(2).stdout)) == Some(HttpsTip)
    requires git(3).code == 0 && UnstagedOrUntracked(git(3).stdout) == Ok(true)
    ensures SetupRemote(World(stdin, 0, []), git) == After(Returned(DirtyTree), World([], 4, PullRefusedTrace(stdin, git)))
  {
    InsideWorkTree(World(stdin, 0, []), git, World(stdin, 1, [Ran(RevParse, git(0))]));
    PullRefusedFromStep2(stdin, git);
  }
}
