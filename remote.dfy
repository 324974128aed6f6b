/** `setup_git_remote`: make the current directory a repository with a remote
    called `origin`, then pull from it or push to it behind safety checks. The
    functions below follow the source's steps; the methods at the end are the
    source's procedure and are proved to behave as the functions say. */
module Remote {
  import opened Shell
  import opened Text
  import opened Session
  import opened Porcelain
  import opened Resolve

  /** Why the workflow returned before its summary. */
  datatype Stop =
    | Cloned          // a repository was cloned; the user re-runs inside it
    | Skipped         // neither clone nor init
    | DirtyTree       // unstaged or untracked changes before a pull or push
    | ResolveAborted  // staged changes, and the user chose to abort
    | Pulled          // the pull action is done
    | InvalidAction   // an action other than k, c, p, u
    | Unreachable     // `git ls-remote origin` failed
    | PushCancelled   // the push was not confirmed with `y`

  datatype Outcome =
    | Completed              // the summary was printed (the push itself may have failed)
    | Returned(why: Stop)
    | Raised(error: Exception)

  const DefaultBranch := "main"
  const InitialMessage := "Initial commit"

  /** `has_unstaged_or_untracked_changes()`: `git status --porcelain`, checked.
      A failing status raises; otherwise the answer is read off the lines of
      the stripped output. */
  function UnstagedCheck(w: World, git: Git): (r: After<Result<bool>>)
    ensures r.w == Call(w, git, Status, true).w
    ensures git(w.issued).code != 0 ==> r.value == Err(CalledProcessError(git(w.issued).code))
    ensures git(w.issued).code == 0 ==>
      var lines := SplitLines(Strip(git(w.issued).stdout));
      && (r.value == Ok(true) ==> SomeDirty(lines))
      && (r.value == Ok(false) ==> AllClean(lines))
      && (r.value.Err? <==> ShortLineFirst(lines))
      && (r.value.Err? ==> r.value.error == IndexError)
  {
    var st := Call(w, git, Status, true);
    var lines := SplitLines(Strip(git(w.issued).stdout));
    ScanAnswers(lines);
    ScanRaises(lines);
    After(if st.value.Err? then Err(st.value.error) else ScanLines(lines), st.w)
  }

  /** `has_staged_changes()`: `git diff --cached --name-only`, checked. A
      failing diff raises; otherwise staged changes are reported exactly when
      the output holds a character that is not white space. */
  function StagedCheck(w: World, git: Git): (r: After<Result<bool>>)
    ensures r.w == Call(w, git, DiffCached, true).w
    ensures git(w.issued).code != 0 ==> r.value == Err(CalledProcessError(git(w.issued).code))
    ensures git(w.issued).code == 0 ==> r.value == Ok(HasNonSpace(git(w.issued).stdout))
  {
    var d := Call(w, git, DiffCached, true);
    AnyStagedIff(git(w.issued).stdout);
    After(if d.value.Err? then Err(d.value.error) else Ok(AnyStaged(d.value.value.stdout)), d.w)
  }

  /** The safety checks before a pull or a push: `None` lets the workflow go
      on, `Some(o)` ends it with `o`. Unstaged or untracked changes end it;
      staged ones go to the commit-or-stash resolver. */
  function SafetyChecks(w: World, git: Git): (r: After<Option<Outcome>>)
  {
    var dirty := UnstagedCheck(w, git);
    if dirty.value.Err? then After(Some(Raised(dirty.value.error)), dirty.w)
    else if dirty.value.value then After(Some(Returned(DirtyTree)), dirty.w)
    else
      var staged := StagedCheck(dirty.w, git);
      if staged.value.Err? then After(Some(Raised(staged.value.error)), staged.w)
      else if !staged.value.value then After(None, staged.w)
      else
        var c := Resolve.Resolve(staged.w, git);
        if c.value.Err? then After(Some(Raised(c.value.error)), c.w)
        else if !c.value.value then After(Some(Returned(ResolveAborted)), c.w)
        else After(None, c.w)
  }

  /** Steps 9 to 11: pull with rebase (its failure is ignored), push (its
      failure is caught and reported), summary. */
  function PullThenPush(w: World, git: Git, branch: string): (r: After<Outcome>)
  {
    var pull := Call(w, git, PullRebase(branch), false);
    var push := Call(pull.w, git, Push(branch), true);
    After(Completed, push.w)
  }

  /** Steps 7 and 8 and the checks before pushing: the branch name (default
      "main"), `git branch -M`, the confirmation, the safety checks. */
  function BranchAndPush(w: World, git: Git): (r: After<Outcome>)
  {
    if w.stdin == [] then After(Raised(EOFError), w)
    else
      var branch := OrDefault(Strip(w.stdin[0]), DefaultBranch);
      var rename := Call(Read(w, PushBranch), git, RenameBranch(branch), true);
      if rename.value.Err? then After(Raised(rename.value.error), rename.w)
      else if rename.w.stdin == [] then After(Raised(EOFError), rename.w)
      else
        var confirmed := Normalize(rename.w.stdin[0]) == "y";
        var w1 := Read(rename.w, ConfirmPush);
        if !confirmed then After(Returned(PushCancelled), w1)
        else
          var gate := SafetyChecks(w1, git);
          if gate.value.Some? then After(gate.value.value, gate.w)
          else PullThenPush(gate.w, git, branch)
  }

  /** Steps 4 to 6: the connection test, `git add .` (its failure ignored),
      `git log` and the status listing, then the first commit if needed. */
  function Publish(w: World, git: Git): (r: After<Outcome>)
  {
    var ls := Call(w, git, LsRemote, true);
    if ls.value.Err? then After(Returned(Unreachable), ls.w)
    else
      var add := Call(ls.w, git, AddAll, false);
      var log := Call(add.w, git, Log, false);
      var status := Call(log.w, git, Status, true);
      if status.value.Err? then After(Raised(status.value.error), status.w)
      else FirstCommit(status.w, git, log.value.value.code != 0 && Strip(status.value.value.stdout) != [])
  }

  /** The end of step 6: when the repository has no commit yet and the tree
      is not empty (`needed`), ask for a message (default "Initial commit")
      and commit; then steps 7 onwards. */
  function FirstCommit(w: World, git: Git, needed: bool): (r: After<Outcome>)
  {
    if !needed then BranchAndPush(w, git)
    else if w.stdin == [] then After(Raised(EOFError), w)
    else
      var msg := OrDefault(Strip(w.stdin[0]), InitialMessage);
      var commit := Call(Read(w, InitialCommitMessage), git, Commit(msg), true);
      if commit.value.Err? then After(Raised(commit.value.error), commit.w)
      else BranchAndPush(commit.w, git)
  }

  /** Step 3: ask for a URL, register it as `origin`, show its tip, go on. */
  function AddRemote(w: World, git: Git): (r: After<Outcome>)
  {
    if w.stdin == [] then After(Raised(EOFError), w)
    else
      var url := Strip(w.stdin[0]);
      var add := Call(Read(w, RemoteUrl), git, AddOrigin(url), true);
      if add.value.Err? then After(Raised(add.value.error), add.w)
      else Publish(ShowTip(add.w, url), git)
  }

  /** The pull action: the branch (default "main"), the safety checks, one
      `git pull --rebase` whose failure is ignored, and return. */
  function PullAction(w: World, git: Git): (r: After<Outcome>)
  {
    if w.stdin == [] then After(Raised(EOFError), w)
    else
      var branch := OrDefault(Strip(w.stdin[0]), DefaultBranch);
      var gate := SafetyChecks(Read(w, PullBranch), git);
      if gate.value.Some? then After(gate.value.value, gate.w)
      else After(Returned(Pulled), Call(gate.w, git, PullRebase(branch), false).w)
  }

  /** Whether the listing of `git remote` names `origin` (one name per line). */
  predicate HasOrigin(listing: string)
  {
    "origin" in SplitLines(Strip(listing))
  }

  /** Step 2: inspect the remotes; with `origin` present, show its URL's tip
      and ask for an action. */
  function Remotes(w: World, git: Git): (r: After<Outcome>)
  {
    var list := Call(w, git, ListRemotes, true);
    if list.value.Err? then After(Raised(list.value.error), list.w)
    else if !HasOrigin(list.value.value.stdout) then AddRemote(list.w, git)
    else
      var get := Call(list.w, git, GetOriginUrl, true);
      if get.value.Err? then After(Raised(get.value.error), get.w)
      else OriginAction(ShowTip(get.w, Strip(get.value.value.stdout)), git)
  }

  /** The action on an existing `origin`: `p` pulls, `u` checks and goes on
      to step 4, `c` removes the remote and goes on to step 3, `k` goes on to
      step 4, anything else returns. */
  function OriginAction(w: World, git: Git): (r: After<Outcome>)
  {
    if w.stdin == [] then After(Raised(EOFError), w)
    else
      var action := Normalize(w.stdin[0]);
      var w1 := Read(w, RemoteAction);
      if action == "p" then PullAction(w1, git)
      else if action == "u" then PushAction(w1, git)
      else if action == "c" then ChangeAction(w1, git)
      else if action == "k" then Publish(w1, git)
      else After(Returned(InvalidAction), w1)
  }

  /** The push action: the safety checks, then step 4 onwards. */
  function PushAction(w: World, git: Git): (r: After<Outcome>)
  {
    var gate := SafetyChecks(w, git);
    if gate.value.Some? then After(gate.value.value, gate.w) else Publish(gate.w, git)
  }

  /** The change action: `git remote remove origin`, then step 3 onwards. */
  function ChangeAction(w: World, git: Git): (r: After<Outcome>)
  {
    var rm := Call(w, git, RemoveOrigin, true);
    if rm.value.Err? then After(Raised(rm.value.error), rm.w) else AddRemote(rm.w, git)
  }

  /** Step 1 and everything after it. */
  function SetupRemote(w: World, git: Git): (r: After<Outcome>)
  {
    var inside := Call(w, git, RevParse, false);
    if inside.value.value.code == 0 then Remotes(inside.w, git)
    else NoWorkTree(inside.w, git)
  }

  /** Outside a work tree: offer to clone (and stop) or to init (and go on to
      step 2); declining both stops. */
  function NoWorkTree(w: World, git: Git): (r: After<Outcome>)
  {
    if w.stdin == [] then After(Raised(EOFError), w)
    else
      var clone := Normalize(w.stdin[0]) == "y";
      var w1 := Read(w, CloneRepo);
      if w1.stdin == [] then After(Raised(EOFError), w1)
      else if clone then
        var c := Call(Read(w1, CloneUrl), git, Clone(Strip(w1.stdin[0])), true);
        After(if c.value.Err? then Raised(c.value.error) else Returned(Cloned), c.w)
      else
        var w2 := Read(w1, InitRepo);
        if Normalize(w1.stdin[0]) != "y" then After(Returned(Skipped), w2)
        else
          var i := Call(w2, git, Init, true);
          if i.value.Err? then After(Raised(i.value.error), i.w) else Remotes(i.w, git)
  }

  /** `has_unstaged_or_untracked_changes()` */
  method HasUnstagedOrUntrackedChanges(h: Host) returns (r: Result<bool>)
    modifies h
    ensures After(r, h.w) == UnstagedCheck(old(h.w), h.git)
  {
    var proc := h.RunGitCommand(Status, true);
    if proc.Err? {
      return Err(proc.error);
    }
    r := UnstagedOrUntracked(proc.value.stdout);
  }

  /** `has_staged_changes()` */
  method HasStagedChanges(h: Host) returns (r: Result<bool>)
    modifies h
    ensures After(r, h.w) == StagedCheck(old(h.w), h.git)
  {
    var proc := h.RunGitCommand(DiffCached, true);
    if proc.Err? {
      return Err(proc.error);
    }
    r := Ok(AnyStaged(proc.value.stdout));
  }

  /** The safety checks `setup_git_remote` runs before a pull or a push. */
  method CheckBeforeSync(h: Host) returns (stop: Option<Outcome>)
    modifies h
    ensures After(stop, h.w) == SafetyChecks(old(h.w), h.git)
  {
    var dirty := HasUnstagedOrUntrackedChanges(h);
    if dirty.Err? { return Some(Raised(dirty.error)); }
    if dirty.value { return Some(Returned(DirtyTree)); }
    var staged := HasStagedChanges(h);
    if staged.Err? { return Some(Raised(staged.error)); }
    if staged.value {
      var resolved := ConfirmCommitOrStash(h);
      if resolved.Err? { return Some(Raised(resolved.error)); }
      if !resolved.value { return Some(Returned(ResolveAborted)); }
    }
    return None;
  }

  /** `setup_git_remote()`: step 1 here, steps 2 and 3 in ConfigureOrigin,
      steps 4 to 11 in PublishToOrigin. The ghost `goal` is the whole run as
      the functions above describe it; at every marked point it equals what
      remains to be done from the current world. */
  method SetupGitRemote(h: Host) returns (out: Outcome)
    modifies h
    ensures After(out, h.w) == SetupRemote(old(h.w), h.git)
  {
    ghost var goal := SetupRemote(h.w, h.git);

    // Step 1: inside a work tree?
    var insideGit := h.RunGitCommand(RevParse, false);
    if insideGit.value.code != 0 {
      assert goal == NoWorkTree(h.w, h.git);
      var choice := h.Input(CloneRepo);
      if choice.None? { return Raised(EOFError); }
      if Normalize(choice.value) == "y" {
        var url := h.Input(CloneUrl);
        if url.None? { return Raised(EOFError); }
        var clone := h.RunGitCommand(Clone(Strip(url.value)), true);
        if clone.Err? { return Raised(clone.error); }
        return Returned(Cloned);
      }
      var initChoice := h.Input(InitRepo);
      if initChoice.None? { return Raised(EOFError); }
      if Normalize(initChoice.value) != "y" { return Returned(Skipped); }
      var init := h.RunGitCommand(Init, true);
      if init.Err? { return Raised(init.error); }
    }

    assert goal == Remotes(h.w, h.git);
    out := ConfigureOrigin(h);
  }

  /** Steps 2 and 3 of `setup_git_remote`: the remotes, the action on an
      existing `origin`, a new `origin` when there is none or it is being
      changed; then steps 4 to 11. */
  method ConfigureOrigin(h: Host) returns (out: Outcome)
    modifies h
    ensures After(out, h.w) == Remotes(old(h.w), h.git)
  {
    ghost var goal := Remotes(h.w, h.git);

    // Step 2: the existing remotes
    var remotesProc := h.RunGitCommand(ListRemotes, true);
    if remotesProc.Err? { return Raised(remotesProc.error); }
    var remotes := SplitLines(Strip(remotesProc.value.stdout));
    var action: Option<string> := None;

    if "origin" in remotes {
      var urlProc := h.RunGitCommand(GetOriginUrl, true);
      if urlProc.Err? { return Raised(urlProc.error); }
      h.ShowGitUrlTip(Strip(urlProc.value.stdout));
      assert goal == OriginAction(h.w, h.git);
      var answer := h.Input(RemoteAction);
      if answer.None? { return Raised(EOFError); }
      action := Some(Normalize(answer.value));

      if action == Some("p") {
        assert goal == PullAction(h.w, h.git);
        var b := h.Input(PullBranch);
        if b.None? { return Raised(EOFError); }
        var branch := OrDefault(Strip(b.value), DefaultBranch);
        var stop := CheckBeforeSync(h);
        if stop.Some? { return stop.value; }
        var _ := h.RunGitCommand(PullRebase(branch), false);
        return Returned(Pulled);
      } else if action == Some("u") {
        assert goal == PushAction(h.w, h.git);
        var stop := CheckBeforeSync(h);
        if stop.Some? { return stop.value; }
        // go on to the push
        assert goal == Publish(h.w, h.git);
      } else if action == Some("c") {
        assert goal == ChangeAction(h.w, h.git);
        var remove := h.RunGitCommand(RemoveOrigin, true);
        if remove.Err? { return Raised(remove.error); }
        assert goal == AddRemote(h.w, h.git);
      } else if action != Some("k") {
        return Returned(InvalidAction);
      }
      assert action != Some("c") ==> goal == Publish(h.w, h.git);
    } else {
      assert goal == AddRemote(h.w, h.git);
    }

    // Step 3: add the remote if needed
    if "origin" !in remotes || action == Some("c") {
      var answer := h.Input(RemoteUrl);
      if answer.None? { return Raised(EOFError); }
      var remoteUrl := Strip(answer.value);
      var add := h.RunGitCommand(AddOrigin(remoteUrl), true);
      if add.Err? { return Raised(add.error); }
      h.ShowGitUrlTip(remoteUrl);
      assert goal == Publish(h.w, h.git);
    }

    assert goal == Publish(h.w, h.git);
    out := PublishToOrigin(h);
  }

  /** Steps 4 to 11 of `setup_git_remote`, which every path that keeps,
      changes, adds or pushes to `origin` runs alike. */
  method PublishToOrigin(h: Host) returns (out: Outcome)
    modifies h
    ensures After(out, h.w) == Publish(old(h.w), h.git)
  {
    ghost var goal := Publish(h.w, h.git);

    // Step 4: test the connection; a failure is caught and ends the run
    var ls := h.RunGitCommand(LsRemote, true);
    if ls.Err? { return Returned(Unreachable); }

    // Step 5: stage everything, failure ignored
    var _ := h.RunGitCommand(AddAll, false);

    // Step 6: first commit if needed
    var hasCommits := h.RunGitCommand(Log, false);
    var statusProc := h.RunGitCommand(Status, true);
    if statusProc.Err? { return Raised(statusProc.error); }
    assert goal == FirstCommit(h.w, h.git, hasCommits.value.code != 0 && Strip(statusProc.value.stdout) != []);
    if hasCommits.value.code != 0 && Strip(statusProc.value.stdout) != [] {
      var answer := h.Input(InitialCommitMessage);
      if answer.None? { return Raised(EOFError); }
      var msg := OrDefault(Strip(answer.value), InitialMessage);
      var commit := h.RunGitCommand(Commit(msg), true);
      if commit.Err? { return Raised(commit.error); }
    }

    // Step 7: branch name
    assert goal == BranchAndPush(h.w, h.git);
    var b := h.Input(PushBranch);
    if b.None? { return Raised(EOFError); }
    var branch := OrDefault(Strip(b.value), DefaultBranch);
    var rename := h.RunGitCommand(RenameBranch(branch), true);
    if rename.Err? { return Raised(rename.error); }

    // Step 8: confirm the push, then the safety checks
    var confirm := h.Input(ConfirmPush);
    if confirm.None? { return Raised(EOFError); }
    if Normalize(confirm.value) != "y" { return Returned(PushCancelled); }
    var stop := CheckBeforeSync(h);
    if stop.Some? { return stop.value; }

    // Step 9: pull with rebase, failure ignored
    assert goal == PullThenPush(h.w, h.git, branch);
    var _ := h.RunGitCommand(PullRebase(branch), false);
    // Step 10: push, a failure is caught and reported
    var _ := h.RunGitCommand(Push(branch), true);
    // Step 11: summary
    return Completed;
  }
}
