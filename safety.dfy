/** The safety gate of `setup_git_remote`: no `git pull` and no `git push` is
    issued unless, just before it, `git status --porcelain` was read as clean
    by the workflow's own classifier and then either `git diff --cached
    --name-only` listed nothing or the commit-or-stash resolver committed or
    stashed successfully. The gate is stated as a monitor that reads the
    record of a run event by event. */
module Safety {
  import opened Shell
  import opened Text
  import opened UrlTip
  import opened Session
  import opened Porcelain
  import opened Resolve
  import opened Remote

  /** `git pull …` or `git push …` */
  predicate IsSync(c: Command)
  {
    c.PullRebase? || c.Push?
  }

  /** What the monitor knows about the tree since the last check. */
  datatype Phase =
    | Open         // nothing checked, or something happened since
    | StatusClean  // the classifier just read the status listing as clean
    | Resolving    // staged changes were listed; the resolver is running
    | Gated        // checked clean: a pull or push may follow
    | Violation    // a pull or push was issued without the gate

  /** The monitor's step on one event. */
  function Step(m: Phase, e: Event): (m': Phase)
    ensures m' == Violation <==> m == Violation || (e.Ran? && IsSync(e.cmd) && m != Gated)
  {
    if m == Violation then Violation
    else match e
      case Ran(cmd, reply) =>
        if IsSync(cmd) then (if m == Gated then Gated else Violation)
        else if cmd == Status then
          (if reply.code == 0 && UnstagedOrUntracked(reply.stdout) == Ok(false) then StatusClean else Open)
        else if cmd == DiffCached && m == StatusClean then
          (if reply.code != 0 then Open else if AnyStaged(reply.stdout) then Resolving else Gated)
        else if m == Resolving && (cmd == Stash || cmd.Commit?) && reply.code == 0 then Gated
        else Open
      case Asked(p, _) =>
        if m == Resolving && (p == ResolveChoice || p == CommitMessage) then Resolving else Open
      case Tipped(_) => Open
  }

  /** The monitor run over `events` from phase `m`. */
  function Run(m: Phase, events: seq<Event>): Phase
    decreases |events|
  {
    if events == [] then m else Run(Step(m, events[0]), events[1..])
  }

  /** A record is safe when the monitor, started knowing nothing, never flags
      a pull or a push. */
  predicate Safe(trace: seq<Event>)
  {
    Run(Open, trace) != Violation
  }

  lemma {:induction false} RunAppend(m: Phase, a: seq<Event>, b: seq<Event>)
    ensures Run(m, a + b) == Run(Run(m, a), b)
    decreases |a|
  {
    if a != [] {
      assert (a + b)[1..] == a[1..] + b;
      RunAppend(Step(m, a[0]), a[1..], b);
    } else {
      assert a + b == b;
    }
  }

  lemma {:induction false} ViolationStays(events: seq<Event>)
    ensures Run(Violation, events) == Violation
    decreases |events|
  {
    if events != [] {
      ViolationStays(events[1..]);
    }
  }

  /** In a safe record, every pull and push is issued in the gated phase: the
      events before it end with a clean check (or another pull or push made
      in that phase). */
  lemma SafeMeans(trace: seq<Event>, i: nat)
    requires Safe(trace) && i < |trace| && trace[i].Ran? && IsSync(trace[i].cmd)
    ensures Run(Open, trace[..i]) == Gated
  {
    assert trace == trace[..i] + [trace[i]] + trace[i + 1..];
    RunAppend(Open, trace[..i] + [trace[i]], trace[i + 1..]);
    RunAppend(Open, trace[..i], [trace[i]]);
    if Run(Open, trace[..i]) != Gated {
      ViolationStays(trace[i + 1..]);
    }
  }

  lemma RunSingle(m: Phase, e: Event)
    ensures Run(m, [e]) == Step(m, e)
  {
    assert [e][1..] == [];
  }

  /** A push with no check before it is flagged, and the same push after a
      clean status listing and an empty staged list is not: the monitor
      tells the two apart. */
  lemma MonitorDecides(branch: string)
    ensures !Safe([Ran(Push(branch), Reply(0, []))])
    ensures Safe([Ran(Status, Reply(0, [])), Ran(DiffCached, Reply(0, [])), Ran(Push(branch), Reply(0, []))])
  {
    RunSingle(Open, Ran(Push(branch), Reply(0, [])));
    var clean := [Ran(Status, Reply(0, [])), Ran(DiffCached, Reply(0, []))];
    assert UnstagedOrUntracked([]) == Ok(false) by {
      assert Strip([]) == [];
      assert SplitLines([]) == [];
    }
    assert !AnyStaged([]);
    RunAppend(Open, [clean[0]], [clean[1]]);
    assert clean == [clean[0]] + [clean[1]];
    RunSingle(Open, clean[0]);
    RunSingle(StatusClean, clean[1]);
    RunAppend(Open, clean, [Ran(Push(branch), Reply(0, []))]);
    RunSingle(Gated, Ran(Push(branch), Reply(0, [])));
    assert clean + [Ran(Push(branch), Reply(0, []))]
        == [Ran(Status, Reply(0, [])), Ran(DiffCached, Reply(0, [])), Ran(Push(branch), Reply(0, []))];
  }

  // What the gated phase means in terms of the record itself.

  /** `git status --porcelain` succeeded and the classifier read it as clean. */
  predicate CleanStatus(e: Event)
  {
    e.Ran? && e.cmd == Status && e.reply.code == 0 && UnstagedOrUntracked(e.reply.stdout) == Ok(false)
  }

  /** `git diff --cached --name-only` listed nothing (`staged` false) or
      something (`staged` true). */
  predicate StagedList(e: Event, staged: bool)
  {
    e.Ran? && e.cmd == DiffCached && e.reply.code == 0 && AnyStaged(e.reply.stdout) == staged
  }

  /** A question of the commit-or-stash resolver. */
  predicate ResolverQuestion(e: Event)
  {
    e.Asked? && (e.prompt == ResolveChoice || e.prompt == CommitMessage)
  }

  /** A commit or a stash that succeeded. */
  predicate Resolved(e: Event)
  {
    e.Ran? && (e.cmd == Stash || e.cmd.Commit?) && e.reply.code == 0
  }

  /** Events `i` to `j` of `t` are a passed check: a clean status, then
      either an empty staged list (`j == i + 1`), or a non-empty one,
      resolver questions and a successful commit or stash at `j`. */
  predicate CheckedAt(t: seq<Event>, i: nat, j: nat)
  {
    && i < j < |t| && CleanStatus(t[i])
    && (|| (j == i + 1 && StagedList(t[j], false))
        || (&& StagedList(t[i + 1], true)
            && (forall k :: i + 1 < k < j ==> ResolverQuestion(t[k]))
            && Resolved(t[j])))
  }

  lemma LastStep(t: seq<Event>)
    requires t != []
    ensures Run(Open, t) == Step(Run(Open, t[..|t| - 1]), t[|t| - 1])
  {
    var n := |t|;
    assert t == t[..n - 1] + [t[n - 1]];
    RunAppend(Open, t[..n - 1], [t[n - 1]]);
    RunSingle(Run(Open, t[..n - 1]), t[n - 1]);
  }

  /** The steps that lead into the status-clean, resolving and gated phases. */
  lemma StepInto(m: Phase, e: Event)
    ensures Step(m, e) == StatusClean ==> CleanStatus(e)
    ensures Step(m, e) == Resolving ==>
              (m == StatusClean && StagedList(e, true)) || (m == Resolving && ResolverQuestion(e))
    ensures Step(m, e) == Gated ==>
              || (m == StatusClean && StagedList(e, false))
              || (m == Resolving && Resolved(e))
              || (m == Gated && e.Ran? && IsSync(e.cmd))
  { }

  /** The monitor is in the status-clean phase only right after a clean status. */
  lemma StatusCleanMeans(t: seq<Event>)
    requires Run(Open, t) == StatusClean
    ensures t != [] && CleanStatus(t[|t| - 1])
  {
    assert t != [];
    LastStep(t);
    StepInto(Run(Open, t[..|t| - 1]), t[|t| - 1]);
  }

  /** Event `i` of `t` is a clean status and event `i + 1` a non-empty
      staged list, and every later event is a resolver question. */
  predicate ResolvingFrom(t: seq<Event>, i: nat)
  {
    && i + 1 < |t| && CleanStatus(t[i]) && StagedList(t[i + 1], true)
    && forall k :: i + 1 < k < |t| ==> ResolverQuestion(t[k])
  }

  /** A resolver question extends a resolving record. */
  lemma ResolvingExtends(p: seq<Event>, e: Event, i: nat)
    requires ResolvingFrom(p, i) && ResolverQuestion(e)
    ensures ResolvingFrom(p + [e], i)
  {
    var t := p + [e];
    forall k | i + 1 < k < |t| ensures ResolverQuestion(t[k]) {
      if k < |p| { assert t[k] == p[k]; }
    }
  }

  /** A successful commit or stash closes a resolving record into a passed check. */
  lemma ResolvedChecks(p: seq<Event>, e: Event, i: nat)
    requires ResolvingFrom(p, i) && Resolved(e)
    ensures CheckedAt(p + [e], i, |p|)
  {
    var t := p + [e];
    assert t[i] == p[i] && t[i + 1] == p[i + 1];
    forall k | i + 1 < k < |p| ensures ResolverQuestion(t[k]) {
      assert t[k] == p[k];
    }
  }

  /** A pull or a push keeps a passed check followed only by syncs. */
  lemma SyncExtends(p: seq<Event>, e: Event, i: nat, j: nat)
    requires CheckedAt(p, i, j) && SyncsAfter(p, j) && e.Ran? && IsSync(e.cmd)
    ensures CheckedAt(p + [e], i, j) && SyncsAfter(p + [e], j)
  {
    var t := p + [e];
    assert forall k :: 0 <= k < |p| ==> t[k] == p[k];
  }

  /** The monitor is resolving only after a clean status, a non-empty staged
      list and nothing since but resolver questions. */
  lemma {:induction false} ResolvingMeans(t: seq<Event>)
    requires Run(Open, t) == Resolving
    ensures exists i :: ResolvingFrom(t, i)
    decreases |t|
  {
    assert t != [];
    var n := |t|;
    var p, e := t[..n - 1], t[n - 1];
    assert t == p + [e];
    LastStep(t);
    var m := Run(Open, p);
    assert Step(m, e) == Resolving;
    StepInto(m, e);
    if m == StatusClean {
      StatusCleanMeans(p);
      assert ResolvingFrom(t, n - 2);
    } else {
      ResolvingMeans(p);
      var i :| ResolvingFrom(p, i);
      ResolvingExtends(p, e, i);
    }
  }

  /** Every event of `t` after `j` is a pull or a push. */
  predicate SyncsAfter(t: seq<Event>, j: nat)
  {
    forall k :: j < k < |t| ==> t[k].Ran? && IsSync(t[k].cmd)
  }

  /** The gated phase, which alone lets a pull or push through, means that
      the record ends with a passed check followed only by pulls and pushes. */
  lemma {:induction false} GatedMeans(t: seq<Event>)
    requires Run(Open, t) == Gated
    ensures exists i, j :: CheckedAt(t, i, j) && SyncsAfter(t, j)
    decreases |t|
  {
    assert t != [];
    var n := |t|;
    var p, e := t[..n - 1], t[n - 1];
    assert t == p + [e];
    LastStep(t);
    var m := Run(Open, p);
    assert Step(m, e) == Gated;
    StepInto(m, e);
    if m == StatusClean {
      StatusCleanMeans(p);
      assert CheckedAt(t, n - 2, n - 1);
    } else if m == Resolving {
      ResolvingMeans(p);
      var i :| ResolvingFrom(p, i);
      ResolvedChecks(p, e, i);
    } else {
      GatedMeans(p);
      var i, j :| CheckedAt(p, i, j) && SyncsAfter(p, j);
      SyncExtends(p, e, i, j);
    }
  }

  /** How the monitor reads the events of the safety checks. */
  lemma StatusStep(m: Phase, reply: Reply)
    requires m != Violation
    ensures Step(m, Ran(Status, reply)) ==
              if reply.code == 0 && UnstagedOrUntracked(reply.stdout) == Ok(false) then StatusClean else Open
  {
  }

  lemma DiffStep(reply: Reply)
    ensures Step(StatusClean, Ran(DiffCached, reply)) ==
              if reply.code != 0 then Open else if AnyStaged(reply.stdout) then Resolving else Gated
  {
  }

  lemma ResolvingSteps(answer: string, msg: string, reply: Reply)
    ensures Step(Resolving, Asked(ResolveChoice, answer)) == Resolving
    ensures Step(Resolving, Asked(CommitMessage, answer)) == Resolving
    ensures Step(Resolving, Ran(Commit(msg), reply)) == if reply.code == 0 then Gated else Open
    ensures Step(Resolving, Ran(Stash, reply)) == if reply.code == 0 then Gated else Open
  {
  }

  // The workflow, step by step: `Monitor(w)` is the monitor's phase after
  // the whole record of `w`; no step of `setup_git_remote` takes it to
  // `Violation`.

  function Monitor(w: World): Phase
  {
    Run(Open, w.trace)
  }

  lemma Record(w: World, e: Event, w': World)
    requires w'.trace == w.trace + [e]
    ensures Monitor(w') == Step(Monitor(w), e)
  {
    RunAppend(Open, w.trace, [e]);
    RunSingle(Monitor(w), e);
  }

  lemma CallMon(w: World, git: Git, cmd: Command, check: bool)
    ensures Monitor(Call(w, git, cmd, check).w) == Step(Monitor(w), Ran(cmd, git(w.issued)))
  {
    Record(w, Ran(cmd, git(w.issued)), Call(w, git, cmd, check).w);
  }

  lemma ReadMon(w: World, p: Prompt)
    requires w.stdin != []
    ensures Monitor(Read(w, p)) == Step(Monitor(w), Asked(p, w.stdin[0]))
  {
    Record(w, Asked(p, w.stdin[0]), Read(w, p));
  }

  lemma TipMon(w: World, url: string)
    requires Monitor(w) != Violation
    ensures Monitor(ShowTip(w, url)) != Violation
  {
    match GitUrlTip(url)
    case Some(t) => Record(w, Tipped(t), ShowTip(w, url));
    case None =>
  }

  /** An accepted answer issues no pull or push, and when it answers true it
      leaves the monitor gated. */
  lemma DecideGates(w: World, git: Git, choice: string)
    requires Monitor(w) == Resolving
    ensures var r := Decide(w, git, choice);
      && Monitor(r.w) != Violation
      && (r.value == Ok(true) ==> Monitor(r.w) == Gated)
  {
    if choice == "c" && w.stdin != [] {
      var w2 := Read(w, CommitMessage);
      var msg := OrDefault(Strip(w.stdin[0]), WipMessage);
      ReadMon(w, CommitMessage);
      CallMon(w2, git, Commit(msg), true);
      ResolvingSteps(w.stdin[0], msg, git(w2.issued));
    } else if choice == "s" {
      CallMon(w, git, Stash, true);
      ResolvingSteps([], [], git(w.issued));
    }
  }

  /** The resolver issues no pull or push, and when it answers true it leaves
      the monitor gated. */
  lemma {:induction false} ResolverGates(w: World, git: Git)
    requires Monitor(w) == Resolving
    ensures var r := Resolve.Resolve(w, git);
      && Monitor(r.w) != Violation
      && (r.value == Ok(true) ==> Monitor(r.w) == Gated)
    decreases |w.stdin|
  {
    if w.stdin != [] {
      var w1 := Read(w, ResolveChoice);
      ReadMon(w, ResolveChoice);
      ResolvingSteps(w.stdin[0], [], git(w.issued));
      if Valid(w.stdin[0]) {
        DecideGates(w1, git, Normalize(w.stdin[0]));
      } else {
        ResolverGates(w1, git);
      }
    }
  }

  /** The safety checks never raise a violation, and when they let the
      workflow go on the monitor is gated, whatever it knew before. */
  lemma GateSafe(w: World, git: Git)
    requires Monitor(w) != Violation
    ensures var r := SafetyChecks(w, git);
      && Monitor(r.w) != Violation
      && (r.value.None? ==> Monitor(r.w) == Gated)
  {
    var dirty := UnstagedCheck(w, git);
    CallMon(w, git, Status, true);
    StatusStep(Monitor(w), git(w.issued));
    if dirty.value.Ok? && !dirty.value.value {
      var staged := StagedCheck(dirty.w, git);
      CallMon(dirty.w, git, DiffCached, true);
      DiffStep(git(dirty.w.issued));
      if staged.value.Ok? && staged.value.value {
        ResolverGates(staged.w, git);
      }
    }
  }

  /** Steps 9 and 10 issued from the gated phase stay gated. */
  lemma PullThenPushSafe(w: World, git: Git, branch: string)
    requires Monitor(w) == Gated
    ensures Monitor(PullThenPush(w, git, branch).w) == Gated
  {
    var pull := Call(w, git, PullRebase(branch), false);
    CallMon(w, git, PullRebase(branch), false);
    CallMon(pull.w, git, Push(branch), true);
  }

  lemma BranchAndPushSafe(w: World, git: Git)
    requires Monitor(w) != Violation
    ensures Monitor(BranchAndPush(w, git).w) != Violation
  {
    if w.stdin != [] {
      var branch := OrDefault(Strip(w.stdin[0]), DefaultBranch);
      var w0 := Read(w, PushBranch);
      var rename := Call(w0, git, RenameBranch(branch), true);
      ReadMon(w, PushBranch);
      CallMon(w0, git, RenameBranch(branch), true);
      if rename.value.Ok? && rename.w.stdin != [] {
        var w1 := Read(rename.w, ConfirmPush);
        ReadMon(rename.w, ConfirmPush);
        if Normalize(rename.w.stdin[0]) == "y" {
          var gate := SafetyChecks(w1, git);
          GateSafe(w1, git);
          if gate.value.None? {
            PullThenPushSafe(gate.w, git, branch);
          }
        }
      }
    }
  }

  lemma FirstCommitSafe(w: World, git: Git, needed: bool)
    requires Monitor(w) != Violation
    ensures Monitor(FirstCommit(w, git, needed).w) != Violation
  {
    if !needed {
      BranchAndPushSafe(w, git);
    } else if w.stdin != [] {
      var msg := OrDefault(Strip(w.stdin[0]), InitialMessage);
      var w1 := Read(w, InitialCommitMessage);
      var commit := Call(w1, git, Commit(msg), true);
      ReadMon(w, InitialCommitMessage);
      CallMon(w1, git, Commit(msg), true);
      if commit.value.Ok? {
        BranchAndPushSafe(commit.w, git);
      }
    }
  }

  lemma PublishSafe(w: World, git: Git)
    requires Monitor(w) != Violation
    ensures Monitor(Publish(w, git).w) != Violation
  {
    var ls := Call(w, git, LsRemote, true);
    CallMon(w, git, LsRemote, true);
    if ls.value.Ok? {
      var add := Call(ls.w, git, AddAll, false);
      var log := Call(add.w, git, Log, false);
      var status := Call(log.w, git, Status, true);
      CallMon(ls.w, git, AddAll, false);
      CallMon(add.w, git, Log, false);
      CallMon(log.w, git, Status, true);
      if status.value.Ok? {
        FirstCommitSafe(status.w, git, log.value.value.code != 0 && Strip(status.value.value.stdout) != []);
      }
    }
  }

  lemma AddRemoteSafe(w: World, git: Git)
    requires Monitor(w) != Violation
    ensures Monitor(AddRemote(w, git).w) != Violation
  {
    if w.stdin != [] {
      var url := Strip(w.stdin[0]);
      var w1 := Read(w, RemoteUrl);
      var add := Call(w1, git, AddOrigin(url), true);
      ReadMon(w, RemoteUrl);
      CallMon(w1, git, AddOrigin(url), true);
      if add.value.Ok? {
        TipMon(add.w, url);
        PublishSafe(ShowTip(add.w, url), git);
      }
    }
  }

  lemma PullActionSafe(w: World, git: Git)
    requires Monitor(w) != Violation
    ensures Monitor(PullAction(w, git).w) != Violation
  {
    if w.stdin != [] {
      var branch := OrDefault(Strip(w.stdin[0]), DefaultBranch);
      var w1 := Read(w, PullBranch);
      ReadMon(w, PullBranch);
      var gate := SafetyChecks(w1, git);
      GateSafe(w1, git);
      if gate.value.None? {
        CallMon(gate.w, git, PullRebase(branch), false);
      }
    }
  }

  lemma OriginActionSafe(w: World, git: Git)
    requires Monitor(w) != Violation
    ensures Monitor(OriginAction(w, git).w) != Violation
  {
    if w.stdin != [] {
      var action := Normalize(w.stdin[0]);
      var w1 := Read(w, RemoteAction);
      ReadMon(w, RemoteAction);
      if action == "p" {
        PullActionSafe(w1, git);
      } else if action == "u" {
        var gate := SafetyChecks(w1, git);
        GateSafe(w1, git);
        if gate.value.None? {
          PublishSafe(gate.w, git);
        }
      } else if action == "c" {
        var rm := Call(w1, git, RemoveOrigin, true);
        CallMon(w1, git, RemoveOrigin, true);
        if rm.value.Ok? {
          AddRemoteSafe(rm.w, git);
        }
      } else if action == "k" {
        PublishSafe(w1, git);
      }
    }
  }

  lemma RemotesSafe(w: World, git: Git)
    requires Monitor(w) != Violation
    ensures Monitor(Remotes(w, git).w) != Violation
  {
    var list := Call(w, git, ListRemotes, true);
    CallMon(w, git, ListRemotes, true);
    if list.value.Ok? {
      if !HasOrigin(list.value.value.stdout) {
        AddRemoteSafe(list.w, git);
      } else {
        var get := Call(list.w, git, GetOriginUrl, true);
        CallMon(list.w, git, GetOriginUrl, true);
        if get.value.Ok? {
          var url := Strip(get.value.value.stdout);
          TipMon(get.w, url);
          OriginActionSafe(ShowTip(get.w, url), git);
        }
      }
    }
  }

  lemma NoWorkTreeSafe(w: World, git: Git)
    requires Monitor(w) != Violation
    ensures Monitor(NoWorkTree(w, git).w) != Violation
  {
    if w.stdin != [] {
      var w1 := Read(w, CloneRepo);
      ReadMon(w, CloneRepo);
      if w1.stdin != [] {
        if Normalize(w.stdin[0]) == "y" {
          var w2 := Read(w1, CloneUrl);
          ReadMon(w1, CloneUrl);
          CallMon(w2, git, Clone(Strip(w1.stdin[0])), true);
        } else {
          var w2 := Read(w1, InitRepo);
          ReadMon(w1, InitRepo);
          if Normalize(w1.stdin[0]) == "y" {
            var i := Call(w2, git, Init, true);
            CallMon(w2, git, Init, true);
            if i.value.Ok? {
              RemotesSafe(i.w, git);
            }
          }
        }
      }
    }
  }

  lemma SetupRemoteSafe(w: World, git: Git)
    requires Monitor(w) != Violation
    ensures Monitor(SetupRemote(w, git).w) != Violation
  {
    var inside := Call(w, git, RevParse, false);
    CallMon(w, git, RevParse, false);
    if inside.value.value.code == 0 {
      RemotesSafe(inside.w, git);
    } else {
      NoWorkTreeSafe(inside.w, git);
    }
  }

  /** The safety gate: a run of `setup_git_remote` from a fresh session never
      issues a pull or a push the gate has not let through. */
  lemma SetupGitRemoteIsSafe(stdin: seq<string>, git: Git)
    ensures Safe(SetupRemote(World(stdin, 0, []), git).w.trace)
  {
    SetupRemoteSafe(World(stdin, 0, []), git);
  }

  /** In a safe record, each pull or push is preceded by a passed check and
      nothing between that check and it but other pulls and pushes. */
  lemma SyncIsChecked(trace: seq<Event>, k: nat)
    requires Safe(trace) && k < |trace| && trace[k].Ran? && IsSync(trace[k].cmd)
    ensures exists i, j :: CheckedAt(trace[..k], i, j) && SyncsAfter(trace[..k], j)
  {
    SafeMeans(trace, k);
    GatedMeans(trace[..k]);
  }

  /** Every pull and push of a run of `setup_git_remote` follows a passed
      check, whatever git answers and whatever the user types. */
  lemma SetupGitRemoteSyncsChecked(stdin: seq<string>, git: Git, k: nat)
    requires var t := SetupRemote(World(stdin, 0, []), git).w.trace;
             k < |t| && t[k].Ran? && IsSync(t[k].cmd)
    ensures var t := SetupRemote(World(stdin, 0, []), git).w.trace;
            exists i, j :: CheckedAt(t[..k], i, j) && SyncsAfter(t[..k], j)
  {
    SetupGitRemoteIsSafe(stdin, git);
    SyncIsChecked(SetupRemote(World(stdin, 0, []), git).w.trace, k);
  }
}
