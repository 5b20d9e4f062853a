/**
  Properties of `install` (brewblox_ctl/commands/install.py:79-191): how each
  capability decision is reached, which questions are asked, where the command
  can stop, and the fixed order of its host changes.
*/
module InstallFacts {
  import opened Host
  import opened DotEnv
  import opened InitDir
  import opened InitDirFacts
  import opened Resolve
  import opened Install

  // ---------------------------------------------------------------------------
  // Decisions

  /**
    A capability the probe finds already present is never acted on, even when its
    flag asks for it; otherwise a set flag is kept verbatim, `use_defaults` says
    yes, and only then does the operator's answer decide.
  */
  lemma CapabilityPrecedence(opts: InstallOptions, modeConfirmed: bool, probes: Probes, dirs: Dirs,
                             defaultDir: string, answer: Prompt -> bool)
    requires ResolveInstall(opts, modeConfirmed, probes, dirs, defaultDir, answer).Go?
    ensures var p := ResolveInstall(opts, modeConfirmed, probes, dirs, defaultDir, answer).plan;
      && p.aptInstall == (probes.aptAvailable &&
           (if opts.aptInstall.IsSet() then opts.aptInstall == Yes else p.useDefaults || answer(AptPrompt)))
      && p.dockerInstall == (!probes.dockerInstalled &&
           (if opts.dockerInstall.IsSet() then opts.dockerInstall == Yes else p.useDefaults || answer(DockerInstallPrompt)))
      && p.dockerUser == (!probes.inDockerGroup &&
           (if opts.dockerUser.IsSet() then opts.dockerUser == Yes else p.useDefaults || answer(DockerUserPrompt)))
  {
  }

  /**
    Which questions `install` asks before it changes anything: `use_defaults` skips
    the capability questions and the default-directory question, but never the
    erase question for a directory that exists, nor the reboot question.
  */
  lemma QuestionsAsked(opts: InstallOptions, probes: Probes, dirs: Dirs, defaultDir: string,
                       answer: Prompt -> bool, p: Prompt)
    ensures var r := ResolveInstall(opts, true, probes, dirs, defaultDir, answer);
      var useDefaults := if opts.useDefaults.IsSet() then opts.useDefaults == Yes else answer(UseDefaultsPrompt);
      var dirChosen := opts.dir.Some? || useDefaults || answer(DefaultDirPrompt);
      var dir := if opts.dir.Some? then opts.dir.value else defaultDir;
      Asked(p) in r.trace <==>
        || (p == UseDefaultsPrompt && !opts.useDefaults.IsSet())
        || (p == AptPrompt && probes.aptAvailable && !opts.aptInstall.IsSet() && !useDefaults)
        || (p == DockerInstallPrompt && !probes.dockerInstalled && !opts.dockerInstall.IsSet() && !useDefaults)
        || (p == DockerUserPrompt && !probes.inDockerGroup && !opts.dockerUser.IsSet() && !useDefaults)
        || (p == DefaultDirPrompt && opts.dir.None? && !useDefaults)
        || (p == EraseExistingPrompt && dirChosen && dir in dirs)
        || (p == RebootPromptPrompt && r.Go? && !opts.noReboot)
  {
    var ud := UseDefaultsDecision(opts.useDefaults, answer);
    var caps := ResolveCapabilities(opts, probes, ud.value, answer);
    CapabilityQuestions(opts, probes, ud.value, answer, p);
    assert Asked(p) in ud.trace + caps.trace <==> Asked(p) in ud.trace || Asked(p) in caps.trace;
    DirQuestions(opts, ud.value, caps, ud.trace + caps.trace, dirs, defaultDir, answer, p);
  }

  // ---------------------------------------------------------------------------
  // Early returns

  /**
    `install` returns early exactly when the operator declines the default
    directory or the erase confirmation, and then nothing on the host has changed.
  */
  lemma DeclineIsClean(opts: InstallOptions, probes: Probes, dirs: Dirs, defaultDir: string,
                       answer: Prompt -> bool, fails: HostCommand -> bool)
    ensures var r := InstallRun(opts, true, probes, dirs, defaultDir, answer, fails);
      var useDefaults := if opts.useDefaults.IsSet() then opts.useDefaults == Yes else answer(UseDefaultsPrompt);
      && (r.outcome == Returned <==>
            || (opts.dir.None? && !useDefaults && !answer(DefaultDirPrompt))
            || (ChosenDir(opts, defaultDir) in dirs && !answer(EraseExistingPrompt)))
      && (r.outcome == Returned ==> Mutations(r.trace) == [] && r.dirs == dirs)
  {
    var ud := UseDefaultsDecision(opts.useDefaults, answer);
    var caps := ResolveCapabilities(opts, probes, ud.value, answer);
    assert ResolveInstall(opts, true, probes, dirs, defaultDir, answer)
        == ResolveDir(opts, ud.value, caps, ud.trace + caps.trace, dirs, defaultDir, answer);
  }

  // ---------------------------------------------------------------------------
  // The order of the host changes

  /** Once the first part has finished, the host changes of a composition are those of its parts, in order. */
  lemma ThenActions(first: Run, next: Run)
    requires first.outcome == Finished
    ensures Mutations(Then(first, next).trace) == Mutations(first.trace) + Mutations(next.trace)
  {
    MutationsAppend(first.trace, next.trace);
  }

  /** A finished `sh` step changes the host by running its commands, in order. */
  lemma ShStepActions(intro: seq<Event>, cmds: seq<HostCommand>, check: bool, dirs: Dirs,
                      fails: HostCommand -> bool)
    requires |cmds| > 0 && Pure(intro)
    requires ShStep(intro, cmds, check, dirs, fails).outcome == Finished
    ensures Mutations(ShStep(intro, cmds, check, dirs, fails).trace) == RanEvents(cmds)
  {
    MutationsAppend(intro, RanEvents(cmds));
    MutationsRan(cmds);
  }

  lemma NoticeIsPure(n: Notice)
    ensures Pure([Told(n)])
  {
    assert [Told(n)][1..] == [];
  }

  /** The host changes of the apt, docker and docker-group steps, when each is enabled. */
  function HostActions(plan: Plan): seq<Event> {
    (if plan.aptInstall then RanEvents(AptCommands) else [])
    + (if plan.dockerInstall then [Ran(GetDocker)] else [])
    + [Ipv6Enabled]
    + (if plan.dockerUser then [Ran(AddDockerGroup)] else [])
  }

  /** The host change of the directory step: a snapshot load, or a finished `init`. */
  function DirActions(plan: Plan, opts: InstallOptions, dirs: Dirs): seq<Event> {
    if HasSnapshot(opts) then [SnapshotLoaded(plan.dir, opts.snapshotFile.value)]
    else InitActions(plan.dir, opts.release, plan.useDefaults, dirs)
  }

  /** Everything a finished `install` changes on the host, in the order it happens. */
  function PlannedActions(plan: Plan, opts: InstallOptions, dirs: Dirs): seq<Event> {
    HostActions(plan) + DirActions(plan, opts, dirs) + (if opts.noReboot then [] else [Ran(Reboot)])
  }

  lemma AptActions(enabled: bool, dirs: Dirs, fails: HostCommand -> bool)
    requires AptStep(enabled, dirs, fails).outcome == Finished
    ensures Mutations(AptStep(enabled, dirs, fails).trace) == if enabled then RanEvents(AptCommands) else []
  {
    NoticeIsPure(InstallingApt);
    NoticeIsPure(SkippedApt);
    if enabled { ShStepActions([Told(InstallingApt)], AptCommands, true, dirs, fails); }
  }

  lemma DockerActions(enabled: bool, dirs: Dirs, fails: HostCommand -> bool)
    ensures DockerStep(enabled, dirs, fails).outcome == Finished
    ensures Mutations(DockerStep(enabled, dirs, fails).trace) == if enabled then [Ran(GetDocker)] else []
  {
    NoticeIsPure(InstallingDocker);
    NoticeIsPure(SkippedDocker);
    if enabled {
      ShStepActions([Told(InstallingDocker)], [GetDocker], false, dirs, fails);
      assert RanEvents([GetDocker]) == [Ran(GetDocker)];
    }
  }

  lemma UserActions(enabled: bool, dirs: Dirs, fails: HostCommand -> bool)
    requires UserStep(enabled, dirs, fails).outcome == Finished
    ensures Mutations(UserStep(enabled, dirs, fails).trace) == if enabled then [Ran(AddDockerGroup)] else []
  {
    NoticeIsPure(AddingDockerUser);
    NoticeIsPure(SkippedDockerUser);
    if enabled {
      ShStepActions([Told(AddingDockerUser)], [AddDockerGroup], true, dirs, fails);
      assert RanEvents([AddDockerGroup]) == [Ran(AddDockerGroup)];
    }
  }

  lemma Ipv6Actions(dirs: Dirs)
    ensures Mutations(Ipv6Step(dirs).trace) == [Ipv6Enabled]
  {
    MutationsCons(Ipv6Enabled, []);
  }

  /** `install` always calls `init` with `force=True`, so a directory step that finished ran `init` to its end. */
  lemma DirStepActions(plan: Plan, opts: InstallOptions, dirs: Dirs, answer: Prompt -> bool,
                       fails: HostCommand -> bool)
    requires DirStep(plan, opts, dirs, answer, fails).outcome == Finished
    ensures Mutations(DirStep(plan, opts, dirs, answer, fails).trace) == DirActions(plan, opts, dirs)
  {
    if HasSnapshot(opts) {
      MutationsCons(SnapshotLoaded(plan.dir, opts.snapshotFile.value), []);
    } else {
      InitActionOrder(plan.dir, opts.release, true, plan.useDefaults, true, dirs, answer, fails);
    }
  }

  lemma RebootActions(noReboot: bool, promptReboot: bool, dirs: Dirs, fails: HostCommand -> bool)
    requires RebootStep(noReboot, promptReboot, dirs, fails).outcome == Finished
    ensures Mutations(RebootStep(noReboot, promptReboot, dirs, fails).trace) == if noReboot then [] else [Ran(Reboot)]
  {
    NoticeIsPure(SkippedReboot);
    if !noReboot {
      var w := RebootWait(promptReboot);
      assert w == [w[0], w[1]];
      MutationsCons(w[1], []);
      MutationsCons(w[0], [w[1]]);
      ShStepActions(w, [Reboot], true, dirs, fails);
      assert RanEvents([Reboot]) == [Ran(Reboot)];
    }
  }

  lemma ExecuteTailActions(plan: Plan, opts: InstallOptions, dirs: Dirs, answer: Prompt -> bool,
                           fails: HostCommand -> bool)
    requires ExecuteTail(plan, opts, dirs, answer, fails).outcome == Finished
    ensures Mutations(ExecuteTail(plan, opts, dirs, answer, fails).trace)
         == DirActions(plan, opts, dirs) + (if opts.noReboot then [] else [Ran(Reboot)])
  {
    var dir := DirStep(plan, opts, dirs, answer, fails);
    var done := Log([Told(InstallDone)], dir.dirs);
    var reboot := RebootStep(opts.noReboot, plan.promptReboot, dir.dirs, fails);
    ThenActions(dir, Then(done, reboot));
    ThenActions(done, reboot);
    DirStepActions(plan, opts, dirs, answer, fails);
    NoticeIsPure(InstallDone);
    RebootActions(opts.noReboot, plan.promptReboot, dir.dirs, fails);
  }

  /** Four finished steps and a last one change the host by their changes, in order. */
  lemma ChainActions(a: Run, b: Run, c: Run, d: Run, e: Run)
    requires a.outcome == Finished && b.outcome == Finished && c.outcome == Finished && d.outcome == Finished
    ensures Mutations(Then(a, Then(b, Then(c, Then(d, e)))).trace)
         == Mutations(a.trace) + Mutations(b.trace) + Mutations(c.trace) + Mutations(d.trace) + Mutations(e.trace)
  {
    ThenActions(a, Then(b, Then(c, Then(d, e))));
    ThenActions(b, Then(c, Then(d, e)));
    ThenActions(c, Then(d, e));
    ThenActions(d, e);
    Regroup(Mutations(a.trace), Mutations(b.trace), Mutations(c.trace), Mutations(d.trace), Mutations(e.trace));
  }

  lemma Regroup<T>(a: seq<T>, b: seq<T>, c: seq<T>, d: seq<T>, e: seq<T>)
    ensures a + (b + (c + (d + e))) == a + b + c + d + e
  {
  }

  /** The steps of `Execute` before the directory step finish whenever the whole plan does. */
  lemma ExecuteStepsFinished(plan: Plan, opts: InstallOptions, dirs: Dirs, answer: Prompt -> bool,
                             fails: HostCommand -> bool)
    requires Execute(plan, opts, dirs, answer, fails).outcome == Finished
    ensures AptStep(plan.aptInstall, dirs, fails).outcome == Finished
    ensures UserStep(plan.dockerUser, dirs, fails).outcome == Finished
    ensures ExecuteTail(plan, opts, dirs, answer, fails).outcome == Finished
  {
    DockerActions(plan.dockerInstall, dirs, fails);
  }

  /** A plan carried out to the end changes the host by exactly `PlannedActions`, in that order. */
  lemma ExecuteActions(plan: Plan, opts: InstallOptions, dirs: Dirs, answer: Prompt -> bool,
                       fails: HostCommand -> bool)
    requires Execute(plan, opts, dirs, answer, fails).outcome == Finished
    ensures Mutations(Execute(plan, opts, dirs, answer, fails).trace) == PlannedActions(plan, opts, dirs)
  {
    ExecuteStepsFinished(plan, opts, dirs, answer, fails);
    DockerActions(plan.dockerInstall, dirs, fails);
    var apt := AptStep(plan.aptInstall, dirs, fails);
    var docker := DockerStep(plan.dockerInstall, dirs, fails);
    var user := UserStep(plan.dockerUser, dirs, fails);
    var tail := ExecuteTail(plan, opts, dirs, answer, fails);
    ChainActions(apt, docker, Ipv6Step(dirs), user, tail);
    HostStepsActions(plan, dirs, fails);
    ExecuteTailActions(plan, opts, dirs, answer, fails);
    Regroup3(HostActions(plan), DirActions(plan, opts, dirs), if opts.noReboot then [] else [Ran(Reboot)]);
  }

  lemma Regroup3<T>(a: seq<T>, b: seq<T>, c: seq<T>)
    ensures a + (b + c) == a + b + c
  {
  }

  /** The apt, docker, IPv6 and docker-group steps, once through, change the host by `HostActions`. */
  lemma HostStepsActions(plan: Plan, dirs: Dirs, fails: HostCommand -> bool)
    requires AptStep(plan.aptInstall, dirs, fails).outcome == Finished
    requires UserStep(plan.dockerUser, dirs, fails).outcome == Finished
    ensures Mutations(AptStep(plan.aptInstall, dirs, fails).trace) + Mutations(DockerStep(plan.dockerInstall, dirs, fails).trace)
            + Mutations(Ipv6Step(dirs).trace) + Mutations(UserStep(plan.dockerUser, dirs, fails).trace)
         == HostActions(plan)
  {
    AptActions(plan.aptInstall, dirs, fails);
    DockerActions(plan.dockerInstall, dirs, fails);
    Ipv6Actions(dirs);
    UserActions(plan.dockerUser, dirs, fails);
  }

  /**
    The fixed order of a finished `install`: apt packages, docker, IPv6, the docker
    group, then exactly one of the snapshot load and `init`, then the reboot.
    Nothing is changed while the questions are asked.
  */
  lemma InstallActionOrder(opts: InstallOptions, probes: Probes, dirs: Dirs, defaultDir: string,
                           answer: Prompt -> bool, fails: HostCommand -> bool)
    requires InstallRun(opts, true, probes, dirs, defaultDir, answer, fails).outcome == Finished
    ensures var res := ResolveInstall(opts, true, probes, dirs, defaultDir, answer);
      && res.Go?
      && Mutations(InstallRun(opts, true, probes, dirs, defaultDir, answer, fails).trace)
         == PlannedActions(res.plan, opts, dirs)
  {
    ResolveChangesNothing(opts, true, probes, dirs, defaultDir, answer);
    var res := ResolveInstall(opts, true, probes, dirs, defaultDir, answer);
    var e := Execute(res.plan, opts, dirs, answer, fails);
    ExecuteActions(res.plan, opts, dirs, answer, fails);
    MutationsAppend(res.trace, e.trace);
  }

  // ---------------------------------------------------------------------------
  // Failures

  /**
    The apt step is checked: a failing apt command raises, and nothing after it
    runs — not docker, not IPv6, not the directory — so the table is unchanged.
  */
  lemma AptFailureIsFatal(plan: Plan, opts: InstallOptions, dirs: Dirs, answer: Prompt -> bool,
                          fails: HostCommand -> bool, i: nat)
    requires plan.aptInstall && i < |AptCommands| && fails(AptCommands[i])
    ensures var r := Execute(plan, opts, dirs, answer, fails);
      && r.outcome.Raised? && r.outcome.error.CommandFailed?
      && r.outcome.error.command in AptCommands && fails(r.outcome.error.command)
      && Ipv6Enabled !in r.trace
      && r.dirs == dirs
  {
    var apt := AptStep(plan.aptInstall, dirs, fails);
    assert apt == ShStep([Told(InstallingApt)], AptCommands, true, dirs, fails);
    assert apt.trace[..1] == [Told(InstallingApt)];
    assert forall k :: 0 <= k < |apt.trace| ==> apt.trace[k] != Ipv6Enabled by {
      forall k | 0 <= k < |apt.trace| ensures apt.trace[k] != Ipv6Enabled {
        if k == 0 { assert apt.trace[k] == apt.trace[..1][0]; }
      }
    }
  }

  /**
    The docker install script runs with `check=False`: whatever it exits with, the
    run goes on to enable IPv6 once the apt step is through.
  */
  lemma DockerFailureTolerated(plan: Plan, opts: InstallOptions, dirs: Dirs, answer: Prompt -> bool,
                               fails: HostCommand -> bool)
    requires AptStep(plan.aptInstall, dirs, fails).outcome == Finished
    ensures var r := Execute(plan, opts, dirs, answer, fails);
      && (plan.dockerInstall ==> Ran(GetDocker) in r.trace)
      && Ipv6Enabled in r.trace
  {
    var apt := AptStep(plan.aptInstall, dirs, fails);
    var docker := DockerStep(plan.dockerInstall, dirs, fails);
    var rest := Then(UserStep(plan.dockerUser, dirs, fails), ExecuteTail(plan, opts, dirs, answer, fails));
    var r2 := Then(Ipv6Step(dirs), rest);
    assert Execute(plan, opts, dirs, answer, fails) == Then(apt, Then(docker, r2));
    DockerActions(plan.dockerInstall, dirs, fails);
    AptActions(plan.aptInstall, dirs, fails);
    var r := Execute(plan, opts, dirs, answer, fails);
    assert r.trace == apt.trace + (docker.trace + ([Ipv6Enabled] + rest.trace));
    assert Ipv6Enabled in [Ipv6Enabled] + rest.trace;
    if plan.dockerInstall {
      assert docker.trace == [Told(InstallingDocker), Ran(GetDocker)];
      assert Ran(GetDocker) in docker.trace;
    }
  }

  /**
    The docker-group step is checked: a failing `usermod` raises after apt, docker
    and IPv6, and the directory step never runs, so the table is unchanged.
  */
  lemma UserFailureIsFatal(plan: Plan, opts: InstallOptions, dirs: Dirs, answer: Prompt -> bool,
                           fails: HostCommand -> bool)
    requires AptStep(plan.aptInstall, dirs, fails).outcome == Finished
    requires plan.dockerUser && fails(AddDockerGroup)
    ensures var r := Execute(plan, opts, dirs, answer, fails);
      && r.outcome == Raised(CommandFailed(AddDockerGroup))
      && r.dirs == dirs
      && Mutations(r.trace) == HostActions(plan)
  {
    var apt := AptStep(plan.aptInstall, dirs, fails);
    var docker := DockerStep(plan.dockerInstall, dirs, fails);
    var ipv6 := Ipv6Step(dirs);
    var user := UserStep(plan.dockerUser, dirs, fails);
    var tail := ExecuteTail(plan, opts, dirs, answer, fails);
    UserStepFails(dirs, fails);
    DockerActions(plan.dockerInstall, dirs, fails);
    assert Then(user, tail) == user;
    ThenActions(apt, Then(docker, Then(ipv6, user)));
    ThenActions(docker, Then(ipv6, user));
    ThenActions(ipv6, user);
    HostStepsMutations(plan, dirs, fails);
    RegroupRight(Mutations(apt.trace), Mutations(docker.trace), Mutations(ipv6.trace), Mutations(user.trace));
  }

  /** The first thing `install` does once resolved is to say whether it installs the apt packages. */
  lemma AptDecisionFirst(plan: Plan, opts: InstallOptions, dirs: Dirs, answer: Prompt -> bool,
                         fails: HostCommand -> bool)
    ensures var r := Execute(plan, opts, dirs, answer, fails);
      && |r.trace| > 0
      && (r.trace[0] == Told(SkippedApt) <==> !plan.aptInstall)
      && (r.trace[0] == Told(InstallingApt) <==> plan.aptInstall)
  {
  }

  /** A failing `usermod` raises, and that command is the step's only host change. */
  lemma UserStepFails(dirs: Dirs, fails: HostCommand -> bool)
    requires fails(AddDockerGroup)
    ensures var user := UserStep(true, dirs, fails);
      && user.outcome == Raised(CommandFailed(AddDockerGroup))
      && user.dirs == dirs
      && Mutations(user.trace) == [Ran(AddDockerGroup)]
  {
    assert Sh([AddDockerGroup], true, fails) == ShResult([AddDockerGroup], true);
    assert RanEvents([AddDockerGroup]) == [Ran(AddDockerGroup)];
    MutationsCons(Ran(AddDockerGroup), []);
    MutationsCons(Told(AddingDockerUser), [Ran(AddDockerGroup)]);
  }

  lemma RegroupRight<T>(a: seq<T>, b: seq<T>, c: seq<T>, d: seq<T>)
    ensures a + (b + (c + d)) == a + b + c + d
  {
  }

  /** The changes of the apt, docker and IPv6 steps once the apt step is through. */
  lemma HostStepsMutations(plan: Plan, dirs: Dirs, fails: HostCommand -> bool)
    requires AptStep(plan.aptInstall, dirs, fails).outcome == Finished
    requires plan.dockerUser
    ensures Mutations(AptStep(plan.aptInstall, dirs, fails).trace) + Mutations(DockerStep(plan.dockerInstall, dirs, fails).trace)
            + Mutations(Ipv6Step(dirs).trace) + [Ran(AddDockerGroup)] == HostActions(plan)
  {
    AptActions(plan.aptInstall, dirs, fails);
    DockerActions(plan.dockerInstall, dirs, fails);
    Ipv6Actions(dirs);
  }

  // ---------------------------------------------------------------------------
  // The directory guard

  /**
    With the checked apt and docker-group steps through, the plan raises
    `FileExistsError` exactly when `init` meets a foreign directory.
  */
  lemma ForeignDirGuard(plan: Plan, opts: InstallOptions, dirs: Dirs, answer: Prompt -> bool,
                        fails: HostCommand -> bool)
    requires AptStep(plan.aptInstall, dirs, fails).outcome == Finished
    requires UserStep(plan.dockerUser, dirs, fails).outcome == Finished
    ensures Execute(plan, opts, dirs, answer, fails).outcome == Raised(NotBrewbloxDir(plan.dir)) <==>
              !HasSnapshot(opts) && plan.dir in dirs && dirs[plan.dir].Foreign?
  {
    var dir := DirStep(plan, opts, dirs, answer, fails);
    var tail := ExecuteTail(plan, opts, dirs, answer, fails);
    DockerActions(plan.dockerInstall, dirs, fails);
    if dir.outcome == Finished {
      var reboot := RebootStep(opts.noReboot, plan.promptReboot, dir.dirs, fails);
      assert tail.outcome == reboot.outcome;
    }
  }

  /** When the directory guard fires, every step before it finished and the guard itself logged nothing. */
  lemma ForeignDirStepsFinished(plan: Plan, opts: InstallOptions, dirs: Dirs, answer: Prompt -> bool,
                                fails: HostCommand -> bool)
    requires Execute(plan, opts, dirs, answer, fails).outcome.Raised?
    requires Execute(plan, opts, dirs, answer, fails).outcome.error.NotBrewbloxDir?
    ensures AptStep(plan.aptInstall, dirs, fails).outcome == Finished
    ensures UserStep(plan.dockerUser, dirs, fails).outcome == Finished
    ensures ExecuteTail(plan, opts, dirs, answer, fails) == DirStep(plan, opts, dirs, answer, fails)
    ensures DirStep(plan, opts, dirs, answer, fails).trace == []
    ensures DirStep(plan, opts, dirs, answer, fails).outcome == Raised(NotBrewbloxDir(plan.dir))
  {
    var apt := AptStep(plan.aptInstall, dirs, fails);
    var docker := DockerStep(plan.dockerInstall, dirs, fails);
    var user := UserStep(plan.dockerUser, dirs, fails);
    var tail := ExecuteTail(plan, opts, dirs, answer, fails);
    assert Execute(plan, opts, dirs, answer, fails)
        == Then(apt, Then(docker, Then(Ipv6Step(dirs), Then(user, tail))));
    DockerActions(plan.dockerInstall, dirs, fails);
  }

  /**
    When the guard fires inside `install`, the apt, docker, IPv6 and docker-group
    steps have already changed the host, and nothing else has.
  */
  lemma ForeignDirAfterHostActions(plan: Plan, opts: InstallOptions, dirs: Dirs, answer: Prompt -> bool,
                                   fails: HostCommand -> bool)
    requires Execute(plan, opts, dirs, answer, fails).outcome.Raised?
    requires Execute(plan, opts, dirs, answer, fails).outcome.error.NotBrewbloxDir?
    ensures var r := Execute(plan, opts, dirs, answer, fails);
      && r.outcome.error.dir == plan.dir
      && !HasSnapshot(opts) && plan.dir in dirs && dirs[plan.dir].Foreign?
      && Mutations(r.trace) == HostActions(plan)
      && r.dirs == dirs
  {
    ForeignDirStepsFinished(plan, opts, dirs, answer, fails);
    DockerActions(plan.dockerInstall, dirs, fails);
    var apt := AptStep(plan.aptInstall, dirs, fails);
    var docker := DockerStep(plan.dockerInstall, dirs, fails);
    var user := UserStep(plan.dockerUser, dirs, fails);
    var tail := ExecuteTail(plan, opts, dirs, answer, fails);
    ChainActions(apt, docker, Ipv6Step(dirs), user, tail);
    AptActions(plan.aptInstall, dirs, fails);
    Ipv6Actions(dirs);
    UserActions(plan.dockerUser, dirs, fails);
    assert Mutations(tail.trace) == [];
  }

  // ---------------------------------------------------------------------------
  // Settings and reboot

  /**
    A finished `install` without a snapshot leaves the directory managed, with the
    release and `skip_confirm=use_defaults` written over its previous `.env`.
  */
  lemma InstallWritesSettings(opts: InstallOptions, probes: Probes, dirs: Dirs, defaultDir: string,
                              answer: Prompt -> bool, fails: HostCommand -> bool)
    requires InstallRun(opts, true, probes, dirs, defaultDir, answer, fails).outcome == Finished
    requires !HasSnapshot(opts)
    ensures var res := ResolveInstall(opts, true, probes, dirs, defaultDir, answer);
      && res.Go?
      && InstallRun(opts, true, probes, dirs, defaultDir, answer, fails).dirs
         == dirs[res.plan.dir := Managed(InitSettings(PriorEnv(dirs, res.plan.dir), opts.release, res.plan.useDefaults))]
  {
    var res := ResolveInstall(opts, true, probes, dirs, defaultDir, answer);
    var plan := res.plan;
    var dir := DirStep(plan, opts, dirs, answer, fails);
    var tail := ExecuteTail(plan, opts, dirs, answer, fails);
    assert Execute(plan, opts, dirs, answer, fails).outcome == Finished;
    assert tail.outcome == Finished;
    assert dir.outcome == Finished;
  }

  /** `t` ends with `s`. */
  predicate EndsWith(t: seq<Event>, s: seq<Event>) {
    |s| <= |t| && t[|t| - |s|..] == s
  }

  lemma EndsWithAppend(a: seq<Event>, b: seq<Event>, s: seq<Event>)
    requires EndsWith(b, s)
    ensures EndsWith(a + b, s)
  {
    assert (a + b)[|a + b| - |s|..] == b[|b| - |s|..];
  }

  /** How a finished plan ends: the closing notice, then the skipped reboot or the wait and `sudo reboot`. */
  function RebootEnding(noReboot: bool, promptReboot: bool): seq<Event> {
    if noReboot then [Told(InstallDone), Told(SkippedReboot)]
    else [Told(InstallDone)] + RebootWait(promptReboot) + [Ran(Reboot)]
  }

  lemma ExecuteEnding(plan: Plan, opts: InstallOptions, dirs: Dirs, answer: Prompt -> bool,
                      fails: HostCommand -> bool)
    requires Execute(plan, opts, dirs, answer, fails).outcome == Finished
    ensures EndsWith(Execute(plan, opts, dirs, answer, fails).trace, RebootEnding(opts.noReboot, plan.promptReboot))
  {
    var apt := AptStep(plan.aptInstall, dirs, fails);
    var docker := DockerStep(plan.dockerInstall, dirs, fails);
    var ipv6 := Ipv6Step(dirs);
    var user := UserStep(plan.dockerUser, dirs, fails);
    var dir := DirStep(plan, opts, dirs, answer, fails);
    var tail := ExecuteTail(plan, opts, dirs, answer, fails);
    var reboot := RebootStep(opts.noReboot, plan.promptReboot, dir.dirs, fails);
    var ending := RebootEnding(opts.noReboot, plan.promptReboot);
    var r3 := Then(user, tail);
    var r2 := Then(ipv6, r3);
    var r1 := Then(docker, r2);
    assert Execute(plan, opts, dirs, answer, fails) == Then(apt, r1);
    assert [Told(InstallDone)] + reboot.trace == ending;
    assert EndsWith([Told(InstallDone)] + reboot.trace, ending);
    EndsWithAppend(dir.trace, [Told(InstallDone)] + reboot.trace, ending);
    EndsWithAppend(user.trace, tail.trace, ending);
    EndsWithAppend(ipv6.trace, r3.trace, ending);
    EndsWithAppend(docker.trace, r2.trace, ending);
    EndsWithAppend(apt.trace, r1.trace, ending);
  }

  /**
    A finished `install` ends with the closing notice and then either the skipped
    reboot or the wait — for ENTER if the operator asked to be prompted, else ten
    seconds — followed by `sudo reboot` as its very last step.
  */
  lemma RebootIsLast(opts: InstallOptions, probes: Probes, dirs: Dirs, defaultDir: string,
                     answer: Prompt -> bool, fails: HostCommand -> bool)
    requires InstallRun(opts, true, probes, dirs, defaultDir, answer, fails).outcome == Finished
    ensures var t := InstallRun(opts, true, probes, dirs, defaultDir, answer, fails).trace;
      && (opts.noReboot ==> EndsWith(t, [Told(InstallDone), Told(SkippedReboot)]))
      && (!opts.noReboot ==> EndsWith(t, [Told(InstallDone)] + RebootWait(answer(RebootPromptPrompt)) + [Ran(Reboot)]))
  {
    var res := ResolveInstall(opts, true, probes, dirs, defaultDir, answer);
    var e := Execute(res.plan, opts, dirs, answer, fails);
    ExecuteEnding(res.plan, opts, dirs, answer, fails);
    EndsWithAppend(res.trace, e.trace, RebootEnding(opts.noReboot, res.plan.promptReboot));
  }

  /** With `--no-reboot` a finished `install` never runs `sudo reboot` (nor asks about it, by `QuestionsAsked`). */
  lemma NoRebootMeansNoReboot(opts: InstallOptions, probes: Probes, dirs: Dirs, defaultDir: string,
                              answer: Prompt -> bool, fails: HostCommand -> bool)
    requires InstallRun(opts, true, probes, dirs, defaultDir, answer, fails).outcome == Finished
    requires opts.noReboot
    ensures Ran(Reboot) !in InstallRun(opts, true, probes, dirs, defaultDir, answer, fails).trace
  {
    var plan := ResolveInstall(opts, true, probes, dirs, defaultDir, answer).plan;
    InstallActionOrder(opts, probes, dirs, defaultDir, answer, fails);
    OnlyTheLastStepReboots(plan, opts, dirs);
    MutationsMember(InstallRun(opts, true, probes, dirs, defaultDir, answer, fails).trace, Ran(Reboot));
  }

  /** Among the planned changes, `sudo reboot` occurs only as the final step, and only without `--no-reboot`. */
  lemma OnlyTheLastStepReboots(plan: Plan, opts: InstallOptions, dirs: Dirs)
    ensures Ran(Reboot) in PlannedActions(plan, opts, dirs) <==> !opts.noReboot
  {
    var host := HostActions(plan);
    var dir := DirActions(plan, opts, dirs);
    assert Ran(Reboot) !in RanEvents(AptCommands);
    assert Ran(Reboot) !in host;
    assert Ran(Reboot) !in SettingEvents(opts.release, plan.useDefaults);
    assert Ran(Reboot) !in dir;
    assert PlannedActions(plan, opts, dirs) == host + dir + (if opts.noReboot then [] else [Ran(Reboot)]);
  }

  // ---------------------------------------------------------------------------
  // Two whole runs

  /** `install --use-defaults`, when the question about the reboot is the only one left to ask. */
  function DefaultsOptions(release: string): InstallOptions {
    InstallOptions(Yes, Unset, Unset, Unset, None, false, release, None)
  }

  /**
    `install --use-defaults` on a host without apt, without docker and outside the
    docker group, with no `./brewblox` yet and no failing command: apt is skipped,
    docker is installed, the user joins the group, the directory is created with
    the release, configuration version 0.0.0 and skip-confirm `True`, and the host
    reboots. The reboot question is still asked.
  */
  lemma DefaultsScenario(release: string, dirs: Dirs, defaultDir: string, answer: Prompt -> bool,
                         fails: HostCommand -> bool)
    requires defaultDir !in dirs
    requires forall c :: !fails(c)
    ensures var opts := DefaultsOptions(release);
      var probes := Probes(false, false, false);
      var r := InstallRun(opts, true, probes, dirs, defaultDir, answer, fails);
      && ResolveInstall(opts, true, probes, dirs, defaultDir, answer).trace
         == [Told(AptUnavailable), Told(AptPackageList), Asked(RebootPromptPrompt)]
      && r.outcome == Finished
      && Mutations(r.trace)
         == [Ran(GetDocker), Ipv6Enabled, Ran(AddDockerGroup), Ran(MakeDir(defaultDir)), Ran(TouchEnv(defaultDir))]
            + SettingEvents(release, true) + [Ran(Reboot)]
      && r.dirs == dirs[defaultDir := Managed(map[ReleaseKey := release, CfgVersionKey := InitialCfgVersion,
                                                  SkipConfirmKey := "True"])]
  {
    var opts := DefaultsOptions(release);
    var probes := Probes(false, false, false);
    DefaultsPlan(release, dirs, defaultDir, answer);
    var plan := ResolveInstall(opts, true, probes, dirs, defaultDir, answer).plan;
    NothingFailsFinishes(plan, opts, dirs, answer, fails);
    InstallActionOrder(opts, probes, dirs, defaultDir, answer, fails);
    InstallWritesSettings(opts, probes, dirs, defaultDir, answer, fails);
    InitSettingsFresh(release, true);
    DefaultsActions(release, dirs, defaultDir, answer(RebootPromptPrompt));
  }

  /** The planned host changes of the defaults run, written out. */
  lemma DefaultsActions(release: string, dirs: Dirs, defaultDir: string, promptReboot: bool)
    requires defaultDir !in dirs
    ensures PlannedActions(Plan(true, false, true, true, defaultDir, promptReboot), DefaultsOptions(release), dirs)
         == [Ran(GetDocker), Ipv6Enabled, Ran(AddDockerGroup), Ran(MakeDir(defaultDir)), Ran(TouchEnv(defaultDir))]
            + SettingEvents(release, true) + [Ran(Reboot)]
  {
    var plan := Plan(true, false, true, true, defaultDir, promptReboot);
    var host := [Ran(GetDocker), Ipv6Enabled, Ran(AddDockerGroup)];
    var made := [Ran(MakeDir(defaultDir)), Ran(TouchEnv(defaultDir))];
    assert HostActions(plan) == host;
    assert DirActions(plan, DefaultsOptions(release), dirs) == made + SettingEvents(release, true);
    Regroup4(host, made, SettingEvents(release, true), [Ran(Reboot)]);
    assert host + made == [Ran(GetDocker), Ipv6Enabled, Ran(AddDockerGroup), Ran(MakeDir(defaultDir)), Ran(TouchEnv(defaultDir))];
  }

  lemma Regroup4<T>(a: seq<T>, b: seq<T>, c: seq<T>, d: seq<T>)
    ensures a + (b + c) + d == a + b + c + d
  {
  }

  lemma DefaultsPlan(release: string, dirs: Dirs, defaultDir: string, answer: Prompt -> bool)
    requires defaultDir !in dirs
    ensures var res := ResolveInstall(DefaultsOptions(release), true, Probes(false, false, false), dirs, defaultDir, answer);
      && res.Go?
      && res.trace == [Told(AptUnavailable), Told(AptPackageList), Asked(RebootPromptPrompt)]
      && res.plan == Plan(true, false, true, true, defaultDir, answer(RebootPromptPrompt))
  {
    var opts := DefaultsOptions(release);
    var caps := ResolveCapabilities(opts, Probes(false, false, false), true, answer);
    assert caps.trace == [Told(AptUnavailable), Told(AptPackageList)];
    assert ResolveInstall(opts, true, Probes(false, false, false), dirs, defaultDir, answer)
        == ResolveDir(opts, true, caps, [] + caps.trace, dirs, defaultDir, answer);
  }

  /** With no failing command and no foreign directory in the way, a plan is carried out to the end. */
  lemma NothingFailsFinishes(plan: Plan, opts: InstallOptions, dirs: Dirs, answer: Prompt -> bool,
                             fails: HostCommand -> bool)
    requires forall c :: !fails(c)
    requires !HasSnapshot(opts) ==> !(plan.dir in dirs && dirs[plan.dir].Foreign?)
    ensures Execute(plan, opts, dirs, answer, fails).outcome == Finished
  {
    var dir := DirStep(plan, opts, dirs, answer, fails);
    CheckedStepsFinish(plan, dirs, fails);
    if !HasSnapshot(opts) {
      var init := Init(plan.dir, opts.release, true, plan.useDefaults, true, dirs, answer, fails);
      assert init.outcome != Returned;
    }
    assert ShStep(RebootWait(plan.promptReboot), [Reboot], true, dir.dirs, fails).outcome == Finished;
  }

  /** With no failing command the checked apt and docker-group steps finish. */
  lemma CheckedStepsFinish(plan: Plan, dirs: Dirs, fails: HostCommand -> bool)
    requires forall c :: !fails(c)
    ensures AptStep(plan.aptInstall, dirs, fails).outcome == Finished
    ensures UserStep(plan.dockerUser, dirs, fails).outcome == Finished
  {
    assert ShStep([Told(InstallingApt)], AptCommands, true, dirs, fails).outcome == Finished;
    assert ShStep([Told(AddingDockerUser)], [AddDockerGroup], true, dirs, fails).outcome == Finished;
  }

  /**
    `install --dir <d> --no-reboot` where `d` holds files Brewblox does not manage:
    the directory table is never changed. Declining the erase question returns;
    accepting it runs the host steps and then raises `FileExistsError`.
  */
  lemma ForeignDirScenario(d: string, useDefaults: Tri, probes: Probes, dirs: Dirs, defaultDir: string,
                           answer: Prompt -> bool, fails: HostCommand -> bool)
    requires d in dirs && dirs[d].Foreign?
    requires forall c :: !fails(c)
    ensures var opts := InstallOptions(useDefaults, Unset, Unset, Unset, Some(d), true, "edge", None);
      var r := InstallRun(opts, true, probes, dirs, defaultDir, answer, fails);
      && r.dirs == dirs
      && (answer(EraseExistingPrompt) ==> r.outcome == Raised(NotBrewbloxDir(d)))
      && (!answer(EraseExistingPrompt) ==> r.outcome == Returned)
  {
    var opts := InstallOptions(useDefaults, Unset, Unset, Unset, Some(d), true, "edge", None);
    DeclineIsClean(opts, probes, dirs, defaultDir, answer, fails);
    var res := ResolveInstall(opts, true, probes, dirs, defaultDir, answer);
    if answer(EraseExistingPrompt) {
      var plan := res.plan;
      assert plan.dir == d;
      CheckedStepsFinish(plan, dirs, fails);
      ForeignDirGuard(plan, opts, dirs, answer, fails);
    }
  }
}
