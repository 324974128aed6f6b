# Git remote setup of the DevOps environment script, modelled in Dafny

`DevOps_environment_setup.py` is an interactive provisioning script. Its one
piece of decision logic is the Git remote workflow, `setup_git_remote`, and
its helpers. This project models that workflow and proves its properties.

The workflow has these steps:

1. Check for a work tree; outside one, offer to clone (and stop) or to init.
2. List the remotes. If `origin` exists, show its URL tip and ask for an
   action: keep, change, pull or push.
3. Register a new `origin` when none exists or the action is change.
4. Test the connection with `git ls-remote`.
5. Stage everything.
6. Make an initial commit if the repository has none.
7. Rename the branch.
8. Confirm the push.
9. Pull with rebase.
10. Push.
11. Print a summary.

Before every pull and every push, safety checks run: a porcelain status scan
for unstaged or untracked files, then a test for staged changes. Staged
changes go to the commit-or-stash resolver.

How the model is built:

- **The world is scripted.** `Session.World` holds the lines not yet read
  from standard input, the number of git commands issued, and the record of
  events. An event is a question asked with its answer, a git command issued
  with its reply, or a URL tip printed.
- **git is an oracle.** `git: nat -> Reply` gives the exit status and
  standard output of the n-th command issued.
- **`run_git_command` is `Session.Call`.** With `check` set, a non-zero exit
  status raises `CalledProcessError`.
- **Three endings.** A run ends `Completed` (the summary), `Returned(why)`
  (one of the early `return`s) or `Raised(exception)`. The exceptions are
  `CalledProcessError`, `EOFError` (`input()` with standard input used up)
  and `IndexError` (`line[1]` on a one-character status line).
- **Functions specify, methods follow the source.** The `Remote` functions
  describe the workflow step by step. The methods `SetupGitRemote`,
  `ConfigureOrigin`, `PublishToOrigin`, `CheckBeforeSync` and
  `Resolve.ConfirmCommitOrStash` follow the Python procedure over a `Host`
  object. Each method is proved to end in the state its function gives.
  `CheckBeforeSync` is the block the source repeats at three places (lines
  449-455, 461-467 and 512-518).
- **Python string behaviour is written out.** This covers `str.strip()` (the
  full Unicode white-space set), `str.splitlines()` (all its line
  boundaries, `\r\n` counted as one) and `str.lower()` on the characters
  that matter for one-letter answers. The classifier keeps its quirk: the
  whole output is stripped before it is split. So a first line ` M path` (an
  unstaged change only) loses its leading blank and reads as clean
  (`Porcelain.UnstagedFirstLineMissed`). The same entry on a later line is
  found (`Porcelain.UnstagedLaterLineFound`).
- **The safety gate is a monitor over the record** (`Safety.Step`). A pull
  or push is allowed only right after one of these:
  - a clean status scan followed by an empty staged list;
  - a clean status scan, a non-empty staged list, and a successful commit or
    stash from the resolver.

  `Safety.SetupGitRemoteIsSafe` proves that every run of the workflow passes
  the monitor. `Safety.GatedMeans` proves, in terms of the record alone, what
  the gated phase means: the record ends with a passed check followed only by
  pulls and pushes. So every pull and push of a run has such a check before
  it (`Safety.SetupGitRemoteSyncsChecked`).
  The gate trusts the program's own classifier: "clean" means
  `has_unstaged_or_untracked_changes` answered false. Because of the strip
  quirk above, a listing whose only entry is an unstaged change ` Y path`
  passes, and the pull action then pulls (`Scenarios.PullOverUnstagedChange`).

Some consequences of the code that the model keeps:

- The status test and the staged test are two separate checks (lines
  450-455, 462-467, 513-518). There is no single three-valued status.
- After a successful commit or stash, the status is not checked again
  (lines 453-457, 516-522). The pull or push follows directly.
- A keep-and-push run issues, in order: `rev-parse`, `remote`,
  `remote get-url origin`, `ls-remote`, `add .`, `log`, `status`,
  `branch -M`, `status`, `diff --cached`, `pull --rebase`, `push -u`
  (`Scenarios.KeepAndPushScenario`).
- Outside a work tree, declining to clone and to init issues only the
  read-only `git rev-parse` (lines 416-431).

## Model

| member | source | states |
|---|---|---|
| `UrlTip.StartsWith` | DevOps_environment_setup.py:363-365 | `url.startswith(prefix)`, proved to be exactly the sequence-prefix test the tip contract is stated with. |
| `UrlTip.GitUrlTip` | DevOps_environment_setup.py:362-366 | The HTTPS tip is shown iff the URL starts with `https://`. The SSH tip is shown iff it starts with `git@`. No tip iff neither. |
| `Session.Host.ShowGitUrlTip` | DevOps_environment_setup.py:362-366 | Records the tip that `GitUrlTip` selects, and only that. |
| `Session.Call` | DevOps_environment_setup.py:368-377 | The command is recorded with the oracle's next reply. It raises `CalledProcessError` with that exit status exactly when `check` is set and the status is non-zero. Otherwise it returns the reply. Standard input is untouched. |
| `Session.Host.RunGitCommand` | DevOps_environment_setup.py:368-377 | The method's result and new state are those of `Call`. |
| `Session.Host.Input` | DevOps_environment_setup.py:397 | With input left, `input()` returns the next line and records the question and answer. With none left, it returns nothing and changes nothing (the caller raises `EOFError`). |
| `Session.Read` | DevOps_environment_setup.py:397 | Answering a question consumes exactly the first line of standard input and appends that question and answer to the record. The count of git commands is unchanged. |
| `Session.ShowTip` | DevOps_environment_setup.py:362-366 | Printing the tip leaves input and git untouched. The record grows by the tip `GitUrlTip` selects, or by nothing when there is none. |
| `Shell.ArgvOf` | DevOps_environment_setup.py:416-527 | The git argument vector of each command the workflow issues, with the branch, URL and message in their positions. `ArgvOfInjective` proves no two commands share one. |
| `Shell.ArgvOfInjective` | DevOps_environment_setup.py:416-527 | No two different commands of the workflow share an argument vector, so the record of commands determines the git argument vectors issued. |
| `Text.IsSpace` | DevOps_environment_setup.py:381 | The characters `str.strip()` removes: `str.isspace()`, the Unicode white-space set. |
| `Text.IsLineBreak` | DevOps_environment_setup.py:381 | The line boundaries of `str.splitlines()`. `LineBreakIsSpace` proves each is also white space. |
| `Text.StripTrims` | DevOps_environment_setup.py:381 | `strip()` leaves a contiguous middle of the input with only white space cut off at both ends. The result has no white space at either end. It is empty iff the input is all white space. |
| `Text.Strip` | DevOps_environment_setup.py:381 | `str.strip()`: cut the Python white-space characters from both ends. Its meaning is proved in `StripTrims`. |
| `Text.SplitLinesHaveNoBreak` | DevOps_environment_setup.py:381 | No line returned by `splitlines()` contains a line boundary. |
| `Text.SplitLines` | DevOps_environment_setup.py:381 | `str.splitlines()`. It returns no lines exactly for the empty string. Its other properties are proved in `SplitLinesHaveNoBreak` and `SplitJoin`. |
| `Text.SplitJoin` | DevOps_environment_setup.py:381 | `splitlines()` undoes joining with `\n`, for lines without boundaries whose last line is not empty. |
| `Text.AnswerPicks` | DevOps_environment_setup.py:397 | `answer.strip().lower()` equals a one-letter choice iff the stripped answer is that letter in lower or upper case, or the KELVIN SIGN for `k`. |
| `Text.Lower` | DevOps_environment_setup.py:397 | `str.lower()` character by character, over the characters the answers are compared on. See the `LowerChar` line under Left out. |
| `Text.Normalize` | DevOps_environment_setup.py:397 | How every menu answer is read: `strip()` then `lower()`. `AnswerPicks` proves which answers select each letter. |
| `Text.OrDefault` | DevOps_environment_setup.py:399 | `s or default` is `s` when `s` is non-empty and exactly `default` when `s` is empty. |
| `Porcelain.Dirty` | DevOps_environment_setup.py:386 | A line is dirty when it starts with `??` or its second character is not a space. It has at least two characters. |
| `Porcelain.ScanLines` | DevOps_environment_setup.py:382-388 | The loop over the lines. Empty lines are skipped. The first dirty line answers true. A one-character line reached first raises, and the only exception it can raise is `IndexError`. |
| `Porcelain.UnstagedOrUntracked` | DevOps_environment_setup.py:379-388 | The classifier on the captured output: strip the whole output, split it into lines, scan them. Its answers are characterised by `ScanWellFormed`, `ScanAnswers` and `ScanRaises`. |
| `Porcelain.AnyStaged` | DevOps_environment_setup.py:390-392 | `bool(stdout.strip())`. `AnyStagedIff` proves it true exactly when some character is not white space. |
| `Porcelain.ScanWellFormed` | DevOps_environment_setup.py:382-388 | On a listing with no one-character line, the scan does not raise. It answers true iff some line starts with `??` or has a second character that is not a space. |
| `Porcelain.ScanAnswers` | DevOps_environment_setup.py:382-388 | A true answer means some line is dirty. A false answer means no line is dirty and no line has one character. |
| `Porcelain.ScanRaises` | DevOps_environment_setup.py:386 | `IndexError` is raised iff a one-character line comes before every dirty line. |
| `Porcelain.UnstagedFirstLineMissed` | DevOps_environment_setup.py:381 | Because the whole output is stripped first, a listing whose only entry is ` Y path` (unstaged only) reads as clean. |
| `Porcelain.UnstagedLaterLineFound` | DevOps_environment_setup.py:381-387 | The same ` Y path` entry on a second line is detected. |
| `Porcelain.AnyStagedIff` | DevOps_environment_setup.py:390-392 | Staged changes are reported iff the `git diff --cached --name-only` output holds a character that is not white space. |
| `Remote.HasUnstagedOrUntrackedChanges` | DevOps_environment_setup.py:379-388 | Issues exactly `git status --porcelain`, checked. It raises on failure; otherwise it returns the classifier's answer on the output. |
| `Remote.HasStagedChanges` | DevOps_environment_setup.py:390-392 | Issues exactly `git diff --cached --name-only`, checked. It raises on failure; otherwise it answers whether the stripped output is non-empty. |
| `Resolve.Valid` | DevOps_environment_setup.py:397-408 | An answer is accepted when, stripped and lowered, it is `c`, `s` or `a`. Every other answer falls through to the invalid-option branch. |
| `Resolve.Finish` | DevOps_environment_setup.py:400-405 | Issues the commit or stash, checked. The answer is `CalledProcessError` with that exit status exactly when the status is non-zero, and true otherwise. The state is that of `Call`. |
| `Resolve.Decide` | DevOps_environment_setup.py:398-408 | The three accepted answers. `DecideEvents` and `ResolveAnswer` prove what each issues and returns. |
| `Resolve.Resolve` | DevOps_environment_setup.py:396-410 | The `while True` loop, one answer per turn, with `EOFError` when input runs out. `ResolveMatchesFirstValid`, `ResolveAnswer` and `ResolveEvents` characterise it. |
| `Resolve.FirstValid` | DevOps_environment_setup.py:396-410 | Gives the position of the first answer that reads as `c`, `s` or `a`. Every answer before it is rejected. When there is none, every answer is rejected. |
| `Resolve.ResolveMatchesFirstValid` | DevOps_environment_setup.py:396-410 | The answer loop behaves exactly as deciding on the first accepted answer after recording the rejected ones. |
| `Resolve.ResolveAnswer` | DevOps_environment_setup.py:398-408 | The resolver returns false iff the first accepted answer is `a`. It returns true iff that answer is `s` and the stash succeeds, or it is `c`, a message line follows, and the commit succeeds. |
| `Resolve.DecideEvents` | DevOps_environment_setup.py:398-408 | `a` issues nothing. `s` issues exactly `git stash`. `c` reads a message and issues exactly `git commit -m <msg>`, with "WIP commit" for a blank message. `c` with no input left raises `EOFError` and issues nothing. |
| `Resolve.ResolveEvents` | DevOps_environment_setup.py:396-410 | The full record of a resolver run. Rejected answers are only recorded and issue no git command. After them comes exactly what the accepted answer issues. Without an accepted answer, nothing is issued and the result is `EOFError`. |
| `Resolve.ConfirmCommitOrStash` | DevOps_environment_setup.py:394-410 | The loop's result and final state are those of the resolver function. |
| `Remote.UnstagedCheck` | DevOps_environment_setup.py:379-388 | `has_unstaged_or_untracked_changes()`. A failing `git status --porcelain` raises `CalledProcessError` with its exit status. Otherwise, over the lines of the stripped output: true means some line is dirty, false means no line is dirty and none has one character, and it raises iff a one-character line comes before every dirty line, and then only `IndexError`. Its state is that of issuing the status, checked. |
| `Remote.StagedCheck` | DevOps_environment_setup.py:390-392 | `has_staged_changes()`. A failing `git diff --cached --name-only` raises `CalledProcessError` with its exit status. Otherwise the answer is true exactly when the output holds a character that is not white space. Its state is that of issuing the diff, checked. |
| `Remote.SafetyChecks` | DevOps_environment_setup.py:449-455 | The safety block: a dirty tree returns, staged changes go to the resolver, and an abort returns. `GateStops`, `GateTally` and `GateSafe` prove its endings, footprint and gate. |
| `Remote.SetupRemote` | DevOps_environment_setup.py:412-538 | The whole workflow from step 1. `SetupGitRemoteIsSafe`, `SetupGitRemoteSyncsChecked` and `SetupGitRemoteSyncs` state its safety and its pulls and pushes. |
| `Remote.NoWorkTree` | DevOps_environment_setup.py:418-431 | Outside a work tree: `y` clones the stripped URL and returns; otherwise `y` inits and goes on to step 2; otherwise it returns skipped. |
| `Remote.Remotes` | DevOps_environment_setup.py:433-481 | Step 2: list the remotes. With `origin` present, look up its URL, show the tip and ask for the action. Otherwise go to step 3. `RemotesRemoves` and `RemotesAdds` state when the remote is removed and added. |
| `Remote.HasOrigin` | DevOps_environment_setup.py:434-438 | `"origin" in remotes`, where the listing is stripped and split into lines, so only a whole line `origin` counts. |
| `Remote.OriginAction` | DevOps_environment_setup.py:444-475 | Reads the action and dispatches on `p`, `u`, `c` and `k`. Any other answer returns as invalid. `OriginActionRemoves`, `OriginActionAdds` and `OtherActionsKeep` state its effects on the remote. |
| `Remote.PullAction` | DevOps_environment_setup.py:446-458 | Branch (default `main`), the safety checks, then one unchecked `git pull --rebase` and return. `PullActionPulls` states its footprint. |
| `Remote.PushAction` | DevOps_environment_setup.py:460-468 | The safety checks, then on to step 4. Step 3 is skipped because `origin` is listed and the action is not `c`. |
| `Remote.ChangeAction` | DevOps_environment_setup.py:470-471 | `git remote remove origin`, checked, then step 3. |
| `Remote.AddRemote` | DevOps_environment_setup.py:477-481 | Step 3: read a URL, `git remote add origin <url>` checked, show its tip, go on to step 4. `AddRemoteAdds` states its footprint. |
| `Remote.Publish` | DevOps_environment_setup.py:483-498 | Steps 4 to 6. A failing `ls-remote` is caught and returns. `git add .` and `git log` are unchecked. The status listing is checked. |
| `Remote.FirstCommit` | DevOps_environment_setup.py:495-500 | The initial commit when `git log` failed and the stripped status is non-empty. `PublishAsksInitialCommit` states exactly when it is asked for. |
| `Remote.BranchAndPush` | DevOps_environment_setup.py:502-518 | Steps 7 and 8 and the safety checks. `BranchAndPushNeedsYes` and `BranchAndPushSyncs` state when it completes and what it pulls and pushes. |
| `Remote.PullThenPush` | DevOps_environment_setup.py:520-533 | Steps 9 to 11. The pull is unchecked, a failed push is caught, and the run completes. `PullThenPushSyncs` states its footprint. |
| `Remote.CheckBeforeSync` | DevOps_environment_setup.py:449-455 | The safety checks: status, then staged list, then the resolver. The result and state are those of `SafetyChecks`. |
| `Remote.SetupGitRemote` | DevOps_environment_setup.py:412-431 | Step 1 and the rest of the run. The outcome and final state are those of `SetupRemote`. |
| `Remote.ConfigureOrigin` | DevOps_environment_setup.py:433-481 | Steps 2 and 3, with the pull, push, change and keep actions. The outcome and state are those of `Remotes`. |
| `Remote.PublishToOrigin` | DevOps_environment_setup.py:483-538 | Steps 4 to 11. The outcome and state are those of `Publish`. |
| `Safety.Step` | DevOps_environment_setup.py:512-527 | The monitor step. It flags a violation exactly when it is already in violation, or when a pull or push arrives outside the gated phase. |
| `Safety.Run` | DevOps_environment_setup.py:512-527 | The monitor run over a record, event by event from a given phase. `SafeMeans` and `GatedMeans` state what its phases mean. |
| `Safety.StepInto` | DevOps_environment_setup.py:449-457 | The only ways into the phases. Status-clean comes from a clean status. Resolving comes from a non-empty staged list after a clean status, or from a resolver question while resolving. Gated comes from an empty staged list after a clean status, a successful commit or stash while resolving, or a sync while gated. |
| `Safety.StatusCleanMeans` | DevOps_environment_setup.py:450 | Status-clean holds only right after a clean status listing. |
| `Safety.ResolvingMeans` | DevOps_environment_setup.py:453-454 | Resolving holds only after a clean status, a non-empty staged list and nothing since but resolver questions. |
| `Safety.GatedMeans` | DevOps_environment_setup.py:449-527 | Gated holds only when the record ends with a passed check followed only by pulls and pushes. A passed check is a clean status, then either an empty staged list, or a non-empty one, resolver questions and a successful commit or stash. |
| `Safety.SyncIsChecked` | DevOps_environment_setup.py:449-527 | In a safe record, every pull or push has a passed check before it with only pulls and pushes in between. |
| `Safety.SetupGitRemoteSyncsChecked` | DevOps_environment_setup.py:446-527 | Every pull and push of every run of the workflow has a passed check before it with only pulls and pushes in between. |
| `Safety.PullThenPushSafe` | DevOps_environment_setup.py:520-527 | Steps 9 and 10, started gated, stay gated. |
| `Safety.BranchAndPushSafe` | DevOps_environment_setup.py:502-527 | Steps 7 to 10 never take an unflagged record into violation. |
| `Safety.FirstCommitSafe` | DevOps_environment_setup.py:495-527 | Step 6 onwards never takes an unflagged record into violation. |
| `Safety.PublishSafe` | DevOps_environment_setup.py:483-527 | Step 4 onwards never takes an unflagged record into violation. |
| `Safety.AddRemoteSafe` | DevOps_environment_setup.py:477-527 | Step 3 onwards never takes an unflagged record into violation. |
| `Safety.PullActionSafe` | DevOps_environment_setup.py:446-458 | The pull action never takes an unflagged record into violation. |
| `Safety.OriginActionSafe` | DevOps_environment_setup.py:444-527 | Every action on an existing `origin` never takes an unflagged record into violation. |
| `Safety.RemotesSafe` | DevOps_environment_setup.py:433-527 | Step 2 onwards never takes an unflagged record into violation. |
| `Safety.NoWorkTreeSafe` | DevOps_environment_setup.py:418-527 | The path outside a work tree never takes an unflagged record into violation. |
| `Safety.SetupRemoteSafe` | DevOps_environment_setup.py:412-527 | The whole workflow, from any unflagged record, never takes it into violation. |
| `Safety.SetupGitRemoteIsSafe` | DevOps_environment_setup.py:446-527 | In every run from a fresh session, for every input and every git reply, each pull and push passes the safety-gate monitor. |
| `Safety.SafeMeans` | DevOps_environment_setup.py:512-527 | In a safe record, the events before each pull or push leave the monitor in its gated phase. |
| `Safety.MonitorDecides` | DevOps_environment_setup.py:512-527 | The monitor rejects a push with no check before it and accepts the same push after a clean status and an empty staged list. |
| `Safety.GateSafe` | DevOps_environment_setup.py:449-455 | The safety checks never issue a pull or push. When they let the run go on, the monitor is gated. |
| `Safety.ResolverGates` | DevOps_environment_setup.py:394-410 | The resolver issues no pull or push. When it returns true, its successful commit or stash has left the monitor gated. |
| `Footprint.SetupGitRemoteSyncs` | DevOps_environment_setup.py:412-538 | A run issues a push exactly once if it completes, and never otherwise. It issues a pull exactly once if it completes or the pull action finishes, and never otherwise. So a dirty tree, an abort, a cancelled push or an unreachable remote issue neither. |
| `Footprint.SetupRemoteCounts` | DevOps_environment_setup.py:412-538 | From any state, the workflow adds one pull and one push when it completes, one pull when the pull action is done, and none on any other ending. |
| `Footprint.RemotesCounts` | DevOps_environment_setup.py:433-538 | The same count for step 2 onwards. |
| `Footprint.OriginActionCounts` | DevOps_environment_setup.py:444-538 | The same count for the action on an existing `origin`. |
| `Footprint.PullActionCounts` | DevOps_environment_setup.py:446-458 | The same count for the pull action: at most one pull, never a push. |
| `Footprint.PushActionCounts` | DevOps_environment_setup.py:460-538 | The same count for the push action: the safety checks, then step 4 onwards. |
| `Footprint.ChangeActionCounts` | DevOps_environment_setup.py:470-538 | The same count for the change action: the removal, then step 3 onwards. |
| `Footprint.AddRemoteCounts` | DevOps_environment_setup.py:477-538 | The same count for step 3 onwards. |
| `Footprint.PublishCounts` | DevOps_environment_setup.py:483-538 | The same count for step 4 onwards. |
| `Footprint.FirstCommitCounts` | DevOps_environment_setup.py:495-538 | The same count for step 6 onwards. |
| `Footprint.BranchAndPushCounts` | DevOps_environment_setup.py:502-538 | The same count for steps 7 onwards, which never end as the pull action does. |
| `Footprint.PullThenPushSyncs` | DevOps_environment_setup.py:520-527 | Steps 9 and 10 add exactly one pull and one push. |
| `Footprint.AddRemoteAdds` | DevOps_environment_setup.py:477-481 | Step 3 issues `git remote add origin` once exactly when a URL is read. |
| `Footprint.OtherActionsKeep` | DevOps_environment_setup.py:444-468 | Any action other than `c` issues and asks nothing beyond the steps-4-onwards commands and questions, the pull action's branch question and the action question itself. In particular it never removes or adds a remote, never asks for a URL and never clones. |
| `Footprint.GateStops` | DevOps_environment_setup.py:449-455 | The safety checks end the run only on a dirty tree, an abort at the resolver, or an exception. |
| `Footprint.ResolveTally` | DevOps_environment_setup.py:394-410 | The resolver asks only its two questions and issues at most a commit or a stash. |
| `Footprint.GateTally` | DevOps_environment_setup.py:449-455 | The safety checks issue only status, diff, stash and commit. |
| `Footprint.PullActionPulls` | DevOps_environment_setup.py:446-458 | The pull action never pushes. It issues one pull exactly when it ends as done, whatever the pull's own exit status, and none otherwise. |
| `Footprint.BranchAndPushSyncs` | DevOps_environment_setup.py:503-533 | Steps 7 to 10 issue one pull and one push exactly when they complete. A failing pull does not stop the push, and a failing push still completes. |
| `Footprint.BranchAndPushNeedsYes` | DevOps_environment_setup.py:507-510 | Steps 7 to 10 complete only if the confirmation answer is exactly `y` once stripped and lower-cased. |
| `Footprint.OriginActionRemoves` | DevOps_environment_setup.py:444-475 | `git remote remove origin` is issued iff the action read is `c`. |
| `Footprint.OriginActionAdds` | DevOps_environment_setup.py:470-481 | With `origin` present, `git remote add origin` is issued iff the action is `c`, the removal succeeds and a URL is read. |
| `Footprint.RemotesRemoves` | DevOps_environment_setup.py:433-471 | From step 2, the removal is issued iff the remote list and URL lookup succeed, `origin` is listed and the action is `c`. |
| `Footprint.RemotesAdds` | DevOps_environment_setup.py:433-481 | From step 2, `git remote add origin` is issued iff the remote list succeeds and either `origin` is absent and a URL is read, or the action is `c`, the removal succeeds and a URL is read. |
| `Footprint.PublishAsksInitialCommit` | DevOps_environment_setup.py:495-500 | The initial-commit message is asked for iff all of these hold: `ls-remote` succeeds, `git log` fails, the status succeeds with non-blank output, and input is left. |
| `Scenarios.CloneEndsTheRun` | DevOps_environment_setup.py:416-424 | Outside a work tree, answering `y` to clone issues only `git clone <stripped url>` after `rev-parse` and ends the run. |
| `Scenarios.DeclineBothIssuesNothing` | DevOps_environment_setup.py:418-431 | Declining both clone and init ends the run as skipped, with only `rev-parse` issued. |
| `Scenarios.InvalidActionStops` | DevOps_environment_setup.py:473-475 | An action outside k, c, p and u ends the run once it is read, with nothing further issued. |
| `Scenarios.PullDefaultsToMain` | DevOps_environment_setup.py:446-458 | On a clean tree, a blank branch answer pulls `main`. The run ends as done whatever the pull's exit status. |
| `Scenarios.PullRefusedOnDirtyTree` | DevOps_environment_setup.py:446-452 | With an untracked or unstaged entry, the pull action stops after the status listing and issues no pull. |
| `Scenarios.PullOverUnstagedChange` | DevOps_environment_setup.py:446-457 | When the status listing's only entry is an unstaged change ` Y path`, the line is dirty as git wrote it, yet the classifier's whole-output strip (line 381) hides it. With nothing staged and a blank branch answer, the pull action issues `git pull --rebase origin main` and ends as pulled. The gate trusts the classifier. |
| `Scenarios.CleanTreePasses` | DevOps_environment_setup.py:512-518 | On a clean tree, the safety checks issue exactly status and diff and let the run go on. |
| `Scenarios.DirtyTreeStops` | DevOps_environment_setup.py:513-515 | On a dirty tree, the safety checks stop right after the status listing. |
| `Scenarios.UnreachableStopsBeforeAdd` | DevOps_environment_setup.py:485-490 | A failing `ls-remote` ends the run, caught and not raised, before `git add .`. |
| `Scenarios.InitialCommitDefault` | DevOps_environment_setup.py:498-500 | A blank message commits as "Initial commit". Steps 7 onwards follow only if that commit succeeds. |
| `Scenarios.PushCancelledAfterRename` | DevOps_environment_setup.py:503-510 | `git branch -M <branch>` (default `main`) comes before the confirmation. Any answer other than `y` ends the run as cancelled. |
| `Scenarios.ConfirmedPushOnCleanTree` | DevOps_environment_setup.py:503-533 | A confirmed push on a clean tree issues, in order: rename to `main`, status, diff, `pull --rebase origin main`, `push -u origin main`. It completes whatever the pull and push exit statuses are. |
| `Scenarios.KeepAndPushScenario` | DevOps_environment_setup.py:412-538 | Keep, reachable remote, existing commits, clean tree, default branch, confirmed push: the exact sequence of questions and commands, ending in completion. |

## Left out

- Installing tools, probing for installed tools, the internet check, the
  install prompts and the main menu (`install_app`, `is_installed`,
  `check_installed_apps`, `has_internet`, `prompt_install_apps`,
  `main_menu`). They are package-manager and shell side effects outside the
  remote workflow.
- `setup_git_config` and `setup_github_ssh`. They run `ssh-keygen` and
  `ssh-agent`, set environment variables and create directories: external
  effects only.
- Printed messages and emoji. This includes what `run_git_command` prints
  before it re-raises, and the summary text. The summary is modelled only as
  the `Completed` outcome.
- The "set upstream" hint after a failed push (lines 531-532). It is only a
  printed message, and the model does not spell out the text of a
  `CalledProcessError`.
- What git does to the repository. Replies come from the oracle, so the
  model cannot state that the tree is clean after a commit or stash. The
  workflow itself never checks that again.
- Standard error, and the `capture_output`/`text` flags. The model keeps only
  the exit status and standard output the workflow reads.
- Keyboard interrupts. Running out of input (`EOFError`) is modelled.
- A missing git executable. Every command is assumed to return a reply,
  whereas `subprocess.run` would raise `FileNotFoundError`, which no path of
  `setup_git_remote` catches.
- Text.LowerChar: maps only `A`-`Z` and the KELVIN SIGN. These are the only
  characters whose lower case is a single ASCII letter, so every comparison
  of a lowered answer with `c`, `s`, `a`, `k`, `p`, `u` or `y` is exact. For
  other strings the lowered text may differ from Python's.
- Remote.SetupGitRemote: split with ConfigureOrigin and PublishToOrigin at
  the step 2 and step 4 boundaries, and the repeated safety block is the one
  method CheckBeforeSync. The commands, questions and endings are those of
  the single Python function. Only the grouping into procedures differs.
