/** How many git commands of each kind every step of `setup_git_remote` can
    issue. The statements "this command is issued only when …" rest on these
    counts. */
module Footprint {
  import opened Shell
  import opened Text
  import opened UrlTip
  import opened Session
  import opened Resolve
  import opened Remote

  /** The git subcommands the workflow issues, without their arguments. */
  datatype Kind =
    | RevParseKind | InitKind | CloneKind
    | ListKind | GetUrlKind | RemoveKind | AddOriginKind
    | LsRemoteKind | AddKind | LogKind | StatusKind | DiffKind
    | StashKind | CommitKind | BranchKind | PullKind | PushKind

  function KindOf(c: Command): Kind
  {
    match c
    case RevParse => RevParseKind
    case Init => InitKind
    case Clone(_) => CloneKind
    case ListRemotes => ListKind
    case GetOriginUrl => GetUrlKind
    case RemoveOrigin => RemoveKind
    case AddOrigin(_) => AddOriginKind
    case LsRemote => LsRemoteKind
    case AddAll => AddKind
    case Log => LogKind
    case Status => StatusKind
    case DiffCached => DiffKind
    case Stash => StashKind
    case Commit(_) => CommitKind
    case RenameBranch(_) => BranchKind
    case PullRebase(_) => PullKind
    case Push(_) => PushKind
  }

  /** What one event shows: a kind of command issued, or a question asked. */
  datatype Mark = Issues(kind: Kind) | Asks(prompt: Prompt)

  predicate Shows(e: Event, k: Mark)
  {
    match e
    case Ran(cmd, _) => k == Issues(KindOf(cmd))
    case Asked(p, _) => k == Asks(p)
    case Tipped(_) => false
  }

  /** How many events show `k`. */
  function Count(events: seq<Event>, k: Mark): nat
    decreases |events|
  {
    if events == [] then 0 else (if Shows(events[0], k) then 1 else 0) + Count(events[1..], k)
  }

  lemma {:induction false} CountAppend(a: seq<Event>, b: seq<Event>, k: Mark)
    ensures Count(a + b, k) == Count(a, k) + Count(b, k)
    decreases |a|
  {
    if a != [] {
      assert (a + b)[1..] == a[1..] + b;
      CountAppend(a[1..], b, k);
    } else {
      assert a + b == b;
    }
  }

  /** How many events of the whole record of `w` show `k`. */
  function Tally(w: World, k: Mark): nat
  {
    Count(w.trace, k)
  }

  lemma Record(w: World, e: Event, w': World, k: Mark)
    requires w'.trace == w.trace + [e]
    ensures Tally(w', k) == Tally(w, k) + if Shows(e, k) then 1 else 0
  {
    CountAppend(w.trace, [e], k);
    assert [e][1..] == [];
  }

  lemma CallTally(w: World, git: Git, c: Command, check: bool, k: Mark)
    ensures Tally(Call(w, git, c, check).w, k) == Tally(w, k) + if k == Issues(KindOf(c)) then 1 else 0
  {
    Record(w, Ran(c, git(w.issued)), Call(w, git, c, check).w, k);
  }

  lemma ReadTally(w: World, p: Prompt, k: Mark)
    requires w.stdin != []
    ensures Tally(Read(w, p), k) == Tally(w, k) + if k == Asks(p) then 1 else 0
  {
    Record(w, Asked(p, w.stdin[0]), Read(w, p), k);
  }

  lemma CallKeeps(w: World, git: Git, c: Command, check: bool, k: Mark)
    requires k != Issues(KindOf(c))
    ensures Tally(Call(w, git, c, check).w, k) == Tally(w, k)
  {
    Record(w, Ran(c, git(w.issued)), Call(w, git, c, check).w, k);
  }

  lemma ReadKeeps(w: World, p: Prompt, k: Mark)
    requires w.stdin != [] && k != Asks(p)
    ensures Tally(Read(w, p), k) == Tally(w, k)
  {
    Record(w, Asked(p, w.stdin[0]), Read(w, p), k);
  }

  lemma TipTally(w: World, url: string, k: Mark)
    ensures Tally(ShowTip(w, url), k) == Tally(w, k)
  {
    match GitUrlTip(url)
    case Some(t) => Record(w, Tipped(t), ShowTip(w, url), k);
    case None =>
  }

  // The footprints: a step shows no mark outside its set.

  const ResolveMarks := {Issues(StashKind), Issues(CommitKind), Asks(ResolveChoice), Asks(CommitMessage)}
  const GateMarks := {Issues(StatusKind), Issues(DiffKind), Issues(StashKind), Issues(CommitKind),
                      Asks(ResolveChoice), Asks(CommitMessage)}
  const PushMarks := {Issues(StatusKind), Issues(DiffKind), Issues(StashKind), Issues(CommitKind),
                      Asks(ResolveChoice), Asks(CommitMessage),
                      Issues(BranchKind), Issues(PullKind), Issues(PushKind), Asks(PushBranch), Asks(ConfirmPush)}
  const PublishMarks := {Issues(StatusKind), Issues(DiffKind), Issues(StashKind), Issues(CommitKind),
                         Asks(ResolveChoice), Asks(CommitMessage),
                         Issues(BranchKind), Issues(PullKind), Issues(PushKind), Asks(PushBranch), Asks(ConfirmPush),
                         Issues(LsRemoteKind), Issues(AddKind), Issues(LogKind), Asks(InitialCommitMessage)}
  const PullMarks := {Issues(StatusKind), Issues(DiffKind), Issues(StashKind), Issues(CommitKind),
                      Asks(ResolveChoice), Asks(CommitMessage), Issues(PullKind), Asks(PullBranch)}

  /** An accepted answer asks at most for a message and issues at most a
      commit or a stash. */
  lemma DecideTally(w: World, git: Git, choice: string, k: Mark)
    requires k !in ResolveMarks
    ensures Tally(Decide(w, git, choice).w, k) == Tally(w, k)
  {
    if choice == "c" && w.stdin != [] {
      ReadKeeps(w, CommitMessage, k);
      CallKeeps(Read(w, CommitMessage), git, Commit(OrDefault(Strip(w.stdin[0]), WipMessage)), true, k);
    } else if choice == "s" {
      CallKeeps(w, git, Stash, true, k);
    }
  }

  /** The resolver asks only its two questions and issues at most a commit
      or a stash. */
  lemma {:induction false} ResolveTally(w: World, git: Git, k: Mark)
    requires k !in ResolveMarks
    ensures Tally(Resolve.Resolve(w, git).w, k) == Tally(w, k)
    decreases |w.stdin|
  {
    if w.stdin != [] {
      var w1 := Read(w, ResolveChoice);
      ReadKeeps(w, ResolveChoice, k);
      if Valid(w.stdin[0]) {
        DecideTally(w1, git, Normalize(w.stdin[0]), k);
      } else {
        ResolveTally(w1, git, k);
      }
    }
  }

  /** The safety checks issue only status, diff, stash and commit. */
  lemma GateTally(w: World, git: Git, k: Mark)
    requires k !in GateMarks
    ensures Tally(SafetyChecks(w, git).w, k) == Tally(w, k)
  {
    var dirty := UnstagedCheck(w, git);
    CallKeeps(w, git, Status, true, k);
    if dirty.value.Ok? && !dirty.value.value {
      var staged := StagedCheck(dirty.w, git);
      CallKeeps(dirty.w, git, DiffCached, true, k);
      if staged.value.Ok? && staged.value.value {
        ResolveTally(staged.w, git, k);
      }
    }
  }

  /** The safety checks end the workflow only on a dirty tree, an abort at
      the resolver, or an exception. */
  lemma GateStops(w: World, git: Git)
    ensures var r := SafetyChecks(w, git);
      r.value.Some? ==> r.value.value in {Returned(DirtyTree), Returned(ResolveAborted)} || r.value.value.Raised?
  {
  }

  /** Steps 9 and 10: one pull and one push, nothing else. */
  lemma PullThenPushTally(w: World, git: Git, branch: string, k: Mark)
    requires k != Issues(PullKind) && k != Issues(PushKind)
    ensures Tally(PullThenPush(w, git, branch).w, k) == Tally(w, k)
  {
    var pull := Call(w, git, PullRebase(branch), false);
    CallKeeps(w, git, PullRebase(branch), false, k);
    CallKeeps(pull.w, git, Push(branch), true, k);
  }

  /** Steps 7 to 10 ask for the branch and the confirmation and issue only
      the rename, the safety checks' commands, the pull and the push. */
  lemma BranchAndPushTally(w: World, git: Git, k: Mark)
    requires k !in PushMarks
    ensures Tally(BranchAndPush(w, git).w, k) == Tally(w, k)
  {
    if w.stdin != [] {
      var branch := OrDefault(Strip(w.stdin[0]), DefaultBranch);
      var w0 := Read(w, PushBranch);
      var rename := Call(w0, git, RenameBranch(branch), true);
      ReadKeeps(w, PushBranch, k);
      CallKeeps(w0, git, RenameBranch(branch), true, k);
      if rename.value.Ok? && rename.w.stdin != [] {
        var w1 := Read(rename.w, ConfirmPush);
        ReadKeeps(rename.w, ConfirmPush, k);
        if Normalize(rename.w.stdin[0]) == "y" {
          var gate := SafetyChecks(w1, git);
          GateTally(w1, git, k);
          if gate.value.None? {
            PullThenPushTally(gate.w, git, branch, k);
          }
        }
      }
    }
  }

  lemma FirstCommitTally(w: World, git: Git, needed: bool, k: Mark)
    requires k !in PublishMarks
    ensures Tally(FirstCommit(w, git, needed).w, k) == Tally(w, k)
  {
    if !needed {
      BranchAndPushTally(w, git, k);
    } else if w.stdin != [] {
      var msg := OrDefault(Strip(w.stdin[0]), InitialMessage);
      var w1 := Read(w, InitialCommitMessage);
      var commit := Call(w1, git, Commit(msg), true);
      ReadKeeps(w, InitialCommitMessage, k);
      CallKeeps(w1, git, Commit(msg), true, k);
      if commit.value.Ok? {
        BranchAndPushTally(commit.w, git, k);
      }
    }
  }

  /** Steps 4 to 10 never touch the remotes, init or clone. */
  lemma PublishTally(w: World, git: Git, k: Mark)
    requires k !in PublishMarks
    ensures Tally(Publish(w, git).w, k) == Tally(w, k)
  {
    var ls := Call(w, git, LsRemote, true);
    CallKeeps(w, git, LsRemote, true, k);
    if ls.value.Ok? {
      var add := Call(ls.w, git, AddAll, false);
      var log := Call(add.w, git, Log, false);
      var status := Call(log.w, git, Status, true);
      CallKeeps(ls.w, git, AddAll, false, k);
      CallKeeps(add.w, git, Log, false, k);
      CallKeeps(log.w, git, Status, true, k);
      if status.value.Ok? {
        FirstCommitTally(status.w, git, log.value.value.code != 0 && Strip(status.value.value.stdout) != [], k);
      }
    }
  }

  /** Step 3 asks for the URL and issues only `git remote add origin`, then
      steps 4 to 10, which never remove or add a remote. */
  lemma AddRemoteTally(w: World, git: Git, k: Mark)
    requires k !in PublishMarks && k != Asks(RemoteUrl) && k != Issues(AddOriginKind)
    ensures Tally(AddRemote(w, git).w, k) == Tally(w, k)
  {
    if w.stdin != [] {
      var url := Strip(w.stdin[0]);
      var w1 := Read(w, RemoteUrl);
      var add := Call(w1, git, AddOrigin(url), true);
      ReadKeeps(w, RemoteUrl, k);
      CallKeeps(w1, git, AddOrigin(url), true, k);
      if add.value.Ok? {
        TipTally(add.w, url, k);
        PublishTally(ShowTip(add.w, url), git, k);
      }
    }
  }

  /** Step 3 issues `git remote add origin` once exactly when a URL is read. */
  lemma AddRemoteAdds(w: World, git: Git)
    ensures var k := Issues(AddOriginKind);
      Tally(AddRemote(w, git).w, k) == Tally(w, k) + if w.stdin != [] then 1 else 0
  {
    var k := Issues(AddOriginKind);
    if w.stdin != [] {
      var url := Strip(w.stdin[0]);
      var w1 := Read(w, RemoteUrl);
      var add := Call(w1, git, AddOrigin(url), true);
      ReadKeeps(w, RemoteUrl, k);
      CallTally(w1, git, AddOrigin(url), true, k);
      if add.value.Ok? {
        TipTally(add.w, url, k);
        PublishTally(ShowTip(add.w, url), git, k);
      }
    }
  }

  /** The pull action asks for the branch and issues the safety checks'
      commands and the pull, nothing else. */
  lemma PullActionTally(w: World, git: Git, k: Mark)
    requires k !in PullMarks
    ensures Tally(PullAction(w, git).w, k) == Tally(w, k)
  {
    if w.stdin != [] {
      var branch := OrDefault(Strip(w.stdin[0]), DefaultBranch);
      var w1 := Read(w, PullBranch);
      ReadKeeps(w, PullBranch, k);
      var gate := SafetyChecks(w1, git);
      GateTally(w1, git, k);
      if gate.value.None? {
        CallKeeps(gate.w, git, PullRebase(branch), false, k);
      }
    }
  }

  // What the counts show about the workflow.

  /** The pull action never pushes, and it pulls exactly once when it
      returns "pulled" (whatever the pull's own exit status), and never
      otherwise: a dirty tree, an abort or an exception leave no pull. */
  lemma PullActionPulls(w: World, git: Git)
    ensures var r := PullAction(w, git);
      && Tally(r.w, Issues(PushKind)) == Tally(w, Issues(PushKind))
      && Tally(r.w, Issues(PullKind)) == Tally(w, Issues(PullKind)) + if r.value == Returned(Pulled) then 1 else 0
  {
    PullActionTally(w, git, Issues(PushKind));
    var k := Issues(PullKind);
    if w.stdin != [] {
      var branch := OrDefault(Strip(w.stdin[0]), DefaultBranch);
      var w1 := Read(w, PullBranch);
      ReadKeeps(w, PullBranch, k);
      var gate := SafetyChecks(w1, git);
      GateTally(w1, git, k);
      GateStops(w1, git);
      if gate.value.None? {
        CallTally(gate.w, git, PullRebase(branch), false, k);
      }
    }
  }

  /** Steps 9 and 10 issue one pull and one push. */
  lemma PullThenPushSyncs(w: World, git: Git, branch: string, k: Mark)
    requires k == Issues(PullKind) || k == Issues(PushKind)
    ensures Tally(PullThenPush(w, git, branch).w, k) == Tally(w, k) + 1
  {
    var pull := Call(w, git, PullRebase(branch), false);
    CallTally(w, git, PullRebase(branch), false, k);
    CallTally(pull.w, git, Push(branch), true, k);
  }

  /** Steps 7 to 10 push (and pull) exactly once when they complete, and
      never otherwise. */
  lemma BranchAndPushSyncs(w: World, git: Git, k: Mark)
    requires k == Issues(PullKind) || k == Issues(PushKind)
    ensures var r := BranchAndPush(w, git);
      Tally(r.w, k) == Tally(w, k) + if r.value == Completed then 1 else 0
  {
    if w.stdin != [] {
      var branch := OrDefault(Strip(w.stdin[0]), DefaultBranch);
      var w0 := Read(w, PushBranch);
      var rename := Call(w0, git, RenameBranch(branch), true);
      ReadKeeps(w, PushBranch, k);
      CallKeeps(w0, git, RenameBranch(branch), true, k);
      if rename.value.Ok? && rename.w.stdin != [] {
        var w1 := Read(rename.w, ConfirmPush);
        ReadKeeps(rename.w, ConfirmPush, k);
        if Normalize(rename.w.stdin[0]) == "y" {
          var gate := SafetyChecks(w1, git);
          GateTally(w1, git, k);
          GateStops(w1, git);
          if gate.value.None? {
            PullThenPushSyncs(gate.w, git, branch, k);
          }
        }
      }
    }
  }

  /** Steps 7 to 10 complete only when the second answer they read, the
      confirmation, is exactly `y` once stripped and lower-cased. */
  lemma BranchAndPushNeedsYes(w: World, git: Git)
    ensures BranchAndPush(w, git).value == Completed ==> |w.stdin| >= 2 && Normalize(w.stdin[1]) == "y"
  {
    if w.stdin != [] {
      var w0 := Read(w, PushBranch);
      var rename := Call(w0, git, RenameBranch(OrDefault(Strip(w.stdin[0]), DefaultBranch)), true);
      if rename.value.Ok? && rename.w.stdin != [] {
        assert rename.w.stdin == w.stdin[1..];
      }
    }
  }

  /** The actions other than `c` neither remove nor add a remote. */
  lemma OtherActionsKeep(w: World, git: Git, k: Mark)
    requires w.stdin != [] && Normalize(w.stdin[0]) != "c"
    requires k !in PublishMarks && k != Asks(RemoteAction) && k != Asks(PullBranch)
    ensures Tally(OriginAction(w, git).w, k) == Tally(w, k)
  {
    var action := Normalize(w.stdin[0]);
    var w1 := Read(w, RemoteAction);
    ReadKeeps(w, RemoteAction, k);
    if action == "p" {
      PullActionTally(w1, git, k);
    } else if action == "u" {
      var gate := SafetyChecks(w1, git);
      GateTally(w1, git, k);
      if gate.value.None? {
        PublishTally(gate.w, git, k);
      }
    } else if action == "k" {
      PublishTally(w1, git, k);
    }
  }

  /** The action on an existing `origin` removes it only for `c`. */
  lemma OriginActionRemoves(w: World, git: Git)
    ensures var k := Issues(RemoveKind);
      Tally(OriginAction(w, git).w, k) == Tally(w, k) + if w.stdin != [] && Normalize(w.stdin[0]) == "c" then 1 else 0
  {
    var k := Issues(RemoveKind);
    if w.stdin != [] {
      if Normalize(w.stdin[0]) == "c" {
        var w1 := Read(w, RemoteAction);
        ReadKeeps(w, RemoteAction, k);
        var rm := Call(w1, git, RemoveOrigin, true);
        CallTally(w1, git, RemoveOrigin, true, k);
        if rm.value.Ok? {
          AddRemoteTally(rm.w, git, k);
        }
      } else {
        OtherActionsKeep(w, git, k);
      }
    }
  }

  /** The action on an existing `origin` adds a new one only for `c`, once
      the removal succeeded and the new URL was read. */
  lemma OriginActionAdds(w: World, git: Git)
    ensures var k := Issues(AddOriginKind);
      Tally(OriginAction(w, git).w, k) == Tally(w, k) +
        if |w.stdin| >= 2 && Normalize(w.stdin[0]) == "c" && git(w.issued).code == 0 then 1 else 0
  {
    var k := Issues(AddOriginKind);
    if w.stdin != [] {
      if Normalize(w.stdin[0]) == "c" {
        var w1 := Read(w, RemoteAction);
        ReadKeeps(w, RemoteAction, k);
        var rm := Call(w1, git, RemoveOrigin, true);
        CallKeeps(w1, git, RemoveOrigin, true, k);
        if rm.value.Ok? {
          AddRemoteAdds(rm.w, git);
        }
      } else {
        OtherActionsKeep(w, git, k);
      }
    }
  }

  /** Step 2: `git remote remove origin` is issued once exactly when the
      remotes list and the URL lookup succeed, `origin` is among the remotes
      and the action read is `c`; never otherwise. */
  lemma RemotesRemoves(w: World, git: Git)
    ensures var k := Issues(RemoveKind);
      Tally(Remotes(w, git).w, k) == Tally(w, k) +
        if git(w.issued).code == 0 && HasOrigin(git(w.issued).stdout) && git(w.issued + 1).code == 0
           && w.stdin != [] && Normalize(w.stdin[0]) == "c" then 1 else 0
  {
    var k := Issues(RemoveKind);
    var list := Call(w, git, ListRemotes, true);
    CallKeeps(w, git, ListRemotes, true, k);
    if list.value.Ok? {
      if !HasOrigin(list.value.value.stdout) {
        AddRemoteTally(list.w, git, k);
      } else {
        var get := Call(list.w, git, GetOriginUrl, true);
        CallKeeps(list.w, git, GetOriginUrl, true, k);
        if get.value.Ok? {
          var tip := ShowTip(get.w, Strip(get.value.value.stdout));
          TipTally(get.w, Strip(get.value.value.stdout), k);
          OriginActionRemoves(tip, git);
        }
      }
    }
  }

  /** Step 2 then 3: `git remote add origin` is issued once exactly when the
      remotes list succeeds and either `origin` is absent and a URL is read,
      or `origin` is present, the action is `c`, the removal succeeds and a
      URL is read; never otherwise. */
  lemma RemotesAdds(w: World, git: Git)
    ensures var k := Issues(AddOriginKind);
      Tally(Remotes(w, git).w, k) == Tally(w, k) +
        if git(w.issued).code == 0 &&
           ((!HasOrigin(git(w.issued).stdout) && w.stdin != []) ||
            (HasOrigin(git(w.issued).stdout) && git(w.issued + 1).code == 0 && |w.stdin| >= 2
             && Normalize(w.stdin[0]) == "c" && git(w.issued + 2).code == 0))
        then 1 else 0
  {
    var k := Issues(AddOriginKind);
    var list := Call(w, git, ListRemotes, true);
    CallKeeps(w, git, ListRemotes, true, k);
    if list.value.Ok? {
      if !HasOrigin(list.value.value.stdout) {
        AddRemoteAdds(list.w, git);
      } else {
        var get := Call(list.w, git, GetOriginUrl, true);
        CallKeeps(list.w, git, GetOriginUrl, true, k);
        if get.value.Ok? {
          var tip := ShowTip(get.w, Strip(get.value.value.stdout));
          TipTally(get.w, Strip(get.value.value.stdout), k);
          OriginActionAdds(tip, git);
        }
      }
    }
  }

  /** Steps 4 to 6 ask for an initial commit message exactly when the
      reachability check and the status succeed, `git log` fails (no commit
      yet), the status lists something and an answer is left to read. */
  lemma PublishAsksInitialCommit(w: World, git: Git)
    ensures var k := Asks(InitialCommitMessage);
      Tally(Publish(w, git).w, k) == Tally(w, k) +
        if git(w.issued).code == 0 && git(w.issued + 2).code != 0 && git(w.issued + 3).code == 0
           && Strip(git(w.issued + 3).stdout) != [] && w.stdin != [] then 1 else 0
  {
    var k := Asks(InitialCommitMessage);
    var ls := Call(w, git, LsRemote, true);
    CallKeeps(w, git, LsRemote, true, k);
    if ls.value.Ok? {
      var add := Call(ls.w, git, AddAll, false);
      var log := Call(add.w, git, Log, false);
      var status := Call(log.w, git, Status, true);
      CallKeeps(ls.w, git, AddAll, false, k);
      CallKeeps(add.w, git, Log, false, k);
      CallKeeps(log.w, git, Status, true, k);
      if status.value.Ok? {
        var needed := log.value.value.code != 0 && Strip(status.value.value.stdout) != [];
        if !needed {
          BranchAndPushTally(status.w, git, k);
        } else if status.w.stdin != [] {
          var msg := OrDefault(Strip(status.w.stdin[0]), InitialMessage);
          var w1 := Read(status.w, InitialCommitMessage);
          var commit := Call(w1, git, Commit(msg), true);
          ReadTally(status.w, InitialCommitMessage, k);
          CallKeeps(w1, git, Commit(msg), true, k);
          if commit.value.Ok? {
            BranchAndPushTally(commit.w, git, k);
          }
        }
      }
    }
  }

  // Whole runs: how many pulls and pushes a run issues, by how it ends.

  /** The pulls (or pushes) a run that ends with `out` issues: one of each
      when it completes, one pull when the pull action is done, none on any
      other ending. */
  function SyncsFor(k: Mark, out: Outcome): nat
  {
    if out == Completed then 1
    else if k == Issues(PullKind) && out == Returned(Pulled) then 1
    else 0
  }

  /** Steps 7 to 10 never end as the pull action does. */
  lemma BranchAndPushCounts(w: World, git: Git, k: Mark)
    requires k == Issues(PullKind) || k == Issues(PushKind)
    ensures var r := BranchAndPush(w, git);
      Tally(r.w, k) == Tally(w, k) + SyncsFor(k, r.value)
  {
    BranchAndPushSyncs(w, git, k);
    if w.stdin != [] {
      var w0 := Read(w, PushBranch);
      var rename := Call(w0, git, RenameBranch(OrDefault(Strip(w.stdin[0]), DefaultBranch)), true);
      if rename.value.Ok? && rename.w.stdin != [] {
        GateStops(Read(rename.w, ConfirmPush), git);
      }
    }
  }

  lemma FirstCommitCounts(w: World, git: Git, needed: bool, k: Mark)
    requires k == Issues(PullKind) || k == Issues(PushKind)
    ensures var r := FirstCommit(w, git, needed);
      Tally(r.w, k) == Tally(w, k) + SyncsFor(k, r.value)
  {
    if !needed {
      BranchAndPushCounts(w, git, k);
    } else if w.stdin != [] {
      var msg := OrDefault(Strip(w.stdin[0]), InitialMessage);
      var w1 := Read(w, InitialCommitMessage);
      var commit := Call(w1, git, Commit(msg), true);
      ReadKeeps(w, InitialCommitMessage, k);
      CallKeeps(w1, git, Commit(msg), true, k);
      if commit.value.Ok? {
        BranchAndPushCounts(commit.w, git, k);
      }
    }
  }

  lemma PublishCounts(w: World, git: Git, k: Mark)
    requires k == Issues(PullKind) || k == Issues(PushKind)
    ensures var r := Publish(w, git);
      Tally(r.w, k) == Tally(w, k) + SyncsFor(k, r.value)
  {
    var ls := Call(w, git, LsRemote, true);
    CallKeeps(w, git, LsRemote, true, k);
    if ls.value.Ok? {
      var add := Call(ls.w, git, AddAll, false);
      var log := Call(add.w, git, Log, false);
      var status := Call(log.w, git, Status, true);
      CallKeeps(ls.w, git, AddAll, false, k);
      CallKeeps(add.w, git, Log, false, k);
      CallKeeps(log.w, git, Status, true, k);
      if status.value.Ok? {
        FirstCommitCounts(status.w, git, log.value.value.code != 0 && Strip(status.value.value.stdout) != [], k);
      }
    }
  }

  lemma AddRemoteCounts(w: World, git: Git, k: Mark)
    requires k == Issues(PullKind) || k == Issues(PushKind)
    ensures var r := AddRemote(w, git);
      Tally(r.w, k) == Tally(w, k) + SyncsFor(k, r.value)
  {
    if w.stdin != [] {
      var url := Strip(w.stdin[0]);
      var w1 := Read(w, RemoteUrl);
      var add := Call(w1, git, AddOrigin(url), true);
      ReadKeeps(w, RemoteUrl, k);
      CallKeeps(w1, git, AddOrigin(url), true, k);
      if add.value.Ok? {
        TipTally(add.w, url, k);
        PublishCounts(ShowTip(add.w, url), git, k);
      }
    }
  }

  lemma PullActionCounts(w: World, git: Git, k: Mark)
    requires k == Issues(PullKind) || k == Issues(PushKind)
    ensures var r := PullAction(w, git);
      Tally(r.w, k) == Tally(w, k) + SyncsFor(k, r.value)
  {
    PullActionPulls(w, git);
    if w.stdin != [] {
      GateStops(Read(w, PullBranch), git);
    }
  }

  lemma PushActionCounts(w: World, git: Git, k: Mark)
    requires k == Issues(PullKind) || k == Issues(PushKind)
    ensures var r := PushAction(w, git);
      Tally(r.w, k) == Tally(w, k) + SyncsFor(k, r.value)
  {
    var gate := SafetyChecks(w, git);
    GateTally(w, git, k);
    GateStops(w, git);
    if gate.value.None? {
      PublishCounts(gate.w, git, k);
    }
  }

  lemma ChangeActionCounts(w: World, git: Git, k: Mark)
    requires k == Issues(PullKind) || k == Issues(PushKind)
    ensures var r := ChangeAction(w, git);
      Tally(r.w, k) == Tally(w, k) + SyncsFor(k, r.value)
  {
    var rm := Call(w, git, RemoveOrigin, true);
    CallKeeps(w, git, RemoveOrigin, true, k);
    if rm.value.Ok? {
      AddRemoteCounts(rm.w, git, k);
    }
  }

  lemma OriginActionCounts(w: World, git: Git, k: Mark)
    requires k == Issues(PullKind) || k == Issues(PushKind)
    ensures var r := OriginAction(w, git);
      Tally(r.w, k) == Tally(w, k) + SyncsFor(k, r.value)
  {
    if w.stdin != [] {
      var action := Normalize(w.stdin[0]);
      var w1 := Read(w, RemoteAction);
      ReadKeeps(w, RemoteAction, k);
      if action == "p" {
        PullActionCounts(w1, git, k);
      } else if action == "u" {
        PushActionCounts(w1, git, k);
      } else if action == "c" {
        ChangeActionCounts(w1, git, k);
      } else if action == "k" {
        PublishCounts(w1, git, k);
      }
    }
  }


  lemma RemotesCounts(w: World, git: Git, k: Mark)
    requires k == Issues(PullKind) || k == Issues(PushKind)
    ensures var r := Remotes(w, git);
      Tally(r.w, k) == Tally(w, k) + SyncsFor(k, r.value)
  {
    var list := Call(w, git, ListRemotes, true);
    CallKeeps(w, git, ListRemotes, true, k);
    if list.value.Ok? {
      if !HasOrigin(list.value.value.stdout) {
        AddRemoteCounts(list.w, git, k);
      } else {
        var get := Call(list.w, git, GetOriginUrl, true);
        CallKeeps(list.w, git, GetOriginUrl, true, k);
        if get.value.Ok? {
          var url := Strip(get.value.value.stdout);
          TipTally(get.w, url, k);
          OriginActionCounts(ShowTip(get.w, url), git, k);
        }
      }
    }
  }

  lemma SetupRemoteCounts(w: World, git: Git, k: Mark)
    requires k == Issues(PullKind) || k == Issues(PushKind)
    ensures var r := SetupRemote(w, git);
      Tally(r.w, k) == Tally(w, k) + SyncsFor(k, r.value)
  {
    var inside := Call(w, git, RevParse, false);
    CallKeeps(w, git, RevParse, false, k);
    var v := inside.w;
    if inside.value.value.code == 0 {
      RemotesCounts(v, git, k);
    } else if v.stdin != [] {
      var v1 := Read(v, CloneRepo);
      ReadKeeps(v, CloneRepo, k);
      if v1.stdin != [] {
        if Normalize(v.stdin[0]) == "y" {
          var v2 := Read(v1, CloneUrl);
          ReadKeeps(v1, CloneUrl, k);
          CallKeeps(v2, git, Clone(Strip(v1.stdin[0])), true, k);
        } else {
          var v2 := Read(v1, InitRepo);
          ReadKeeps(v1, InitRepo, k);
          if Normalize(v1.stdin[0]) == "y" {
            var i := Call(v2, git, Init, true);
            CallKeeps(v2, git, Init, true, k);
            if i.value.Ok? {
              RemotesCounts(i.w, git, k);
            }
          }
        }
      }
    }
  }

  /** A run of `setup_git_remote` from a fresh session issues at most one
      push and at most one pull: the push exactly when it completes, the
      pull exactly when it completes or the pull action is done. Every other
      ending (a dirty tree, an abort, a cancelled push, an unreachable
      remote, an exception, …) leaves neither. */
  lemma SetupGitRemoteSyncs(stdin: seq<string>, git: Git)
    ensures var r := SetupRemote(World(stdin, 0, []), git);
      && Count(r.w.trace, Issues(PushKind)) == (if r.value == Completed then 1 else 0)
      && Count(r.w.trace, Issues(PullKind)) == (if r.value in {Completed, Returned(Pulled)} then 1 else 0)
  {
    SetupRemoteCounts(World(stdin, 0, []), git, Issues(PushKind));
    SetupRemoteCounts(World(stdin, 0, []), git, Issues(PullKind));
  }
}
