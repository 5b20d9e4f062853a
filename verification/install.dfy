/**
  The action half of `install` (brewblox_ctl/commands/install.py:139-191) and the
  whole command: resolve, then carry the plan out in a fixed order — apt packages,
  docker, IPv6, the docker group, the directory (a snapshot or `init`), reboot.
*/
module Install {
  import opened Host
  import opened DotEnv
  import opened InitDir
  import opened Resolve

  /** The apt packages `install` asks apt for. */
  const AptCommands: seq<HostCommand> := [AptUpdate, AptUpgrade, AptInstallDeps]

  /** install.py:139-148: a checked `sh` of update, upgrade and install. */
  function AptStep(enabled: bool, dirs: Dirs, fails: HostCommand -> bool): (r: Run)
    ensures r.dirs == dirs
    // A disabled step only says it was skipped; an enabled one never does.
    ensures !enabled ==> r.outcome == Finished && r.trace == [Told(SkippedApt)]
    ensures enabled ==> |r.trace| > 1 && r.trace[0] == Told(InstallingApt) && Told(SkippedApt) !in r.trace
  {
    if enabled then ShStep([Told(InstallingApt)], AptCommands, true, dirs, fails)
    else Log([Told(SkippedApt)], dirs)
  }

  /** install.py:150-155: the docker install script runs with `check=False`. */
  function DockerStep(enabled: bool, dirs: Dirs, fails: HostCommand -> bool): (r: Run)
    ensures r.dirs == dirs
    // A disabled step only says it was skipped; an enabled one never does.
    ensures !enabled ==> r.outcome == Finished && r.trace == [Told(SkippedDocker)]
    ensures enabled ==> |r.trace| > 1 && r.trace[0] == Told(InstallingDocker) && Told(SkippedDocker) !in r.trace
  {
    if enabled then ShStep([Told(InstallingDocker)], [GetDocker], false, dirs, fails)
    else Log([Told(SkippedDocker)], dirs)
  }

  /** install.py:157-158: IPv6 is enabled whatever was decided. */
  function Ipv6Step(dirs: Dirs): (r: Run)
    ensures r.outcome == Finished && r.dirs == dirs
    ensures Mutations(r.trace) == [Ipv6Enabled]
  {
    Run([Ipv6Enabled], Finished, dirs)
  }

  /** install.py:160-165: a checked `sh` of `usermod`. */
  function UserStep(enabled: bool, dirs: Dirs, fails: HostCommand -> bool): (r: Run)
    ensures r.dirs == dirs
    // A disabled step only says it was skipped; an enabled one never does.
    ensures !enabled ==> r.outcome == Finished && r.trace == [Told(SkippedDockerUser)]
    ensures enabled ==> |r.trace| > 1 && r.trace[0] == Told(AddingDockerUser) && Told(SkippedDockerUser) !in r.trace
  {
    if enabled then ShStep([Told(AddingDockerUser)], [AddDockerGroup], true, dirs, fails)
    else Log([Told(SkippedDockerUser)], dirs)
  }

  /** `if snapshot_file:` — Python truthiness: an empty file name counts as no snapshot. */
  predicate HasSnapshot(opts: InstallOptions) {
    opts.snapshotFile.Some? && opts.snapshotFile.value != ""
  }

  /**
    install.py:167-177: load the snapshot, or `init` the directory with `force=True`
    and `skip_confirm=use_defaults`. `confirm_mode` was already passed at the start
    of `install`, so `init` passes it again. A `return` inside `init` only ends `init`.
  */
  function DirStep(plan: Plan, opts: InstallOptions, dirs: Dirs, answer: Prompt -> bool,
                   fails: HostCommand -> bool): (r: Run)
    ensures r.outcome.Finished? || r.outcome.Raised?
    ensures !r.outcome.Finished? && r.outcome != Raised(CommandFailed(TouchEnv(plan.dir))) ==> r.dirs == dirs
    ensures r.outcome == Raised(CommandFailed(TouchEnv(plan.dir))) ==> r.dirs == AfterMakeDir(dirs, plan.dir)
    // `force=True`: the erase question of `init` is never asked, and a finished `init` writes the settings.
    ensures Asked(EraseManagedPrompt) !in r.trace
    ensures r.outcome.Finished? && !HasSnapshot(opts) ==>
              r.dirs == dirs[plan.dir := Managed(InitSettings(PriorEnv(dirs, plan.dir), opts.release, plan.useDefaults))]
    ensures r.outcome == Raised(NotBrewbloxDir(plan.dir)) <==>
              !HasSnapshot(opts) && plan.dir in dirs && dirs[plan.dir].Foreign?
    ensures r.outcome.Raised? && r.outcome.error.NotBrewbloxDir? ==> r.outcome.error.dir == plan.dir && r.trace == []
  {
    if HasSnapshot(opts) then Run([SnapshotLoaded(plan.dir, opts.snapshotFile.value)], Finished, dirs)
    else
      var r := Init(plan.dir, opts.release, true, plan.useDefaults, true, dirs, answer, fails);
      if r.outcome == Returned then Run(r.trace, Finished, r.dirs) else r
  }

  /** The wait before the reboot: ENTER when the operator asked to be prompted, else ten seconds. */
  function RebootWait(promptReboot: bool): seq<Event> {
    if promptReboot then [Told(PressEnterToReboot), WaitedForEnter] else [Told(RebootingSoon), Slept(10)]
  }

  /**
    install.py:181-191: with `--no-reboot` only a notice; otherwise the wait, then a
    checked `sudo reboot`, which is the step's only host change.
  */
  function RebootStep(noReboot: bool, promptReboot: bool, dirs: Dirs, fails: HostCommand -> bool): (r: Run)
    ensures r.dirs == dirs
    ensures noReboot ==> r.outcome == Finished && r.trace == [Told(SkippedReboot)]
    ensures !noReboot ==> r.trace == RebootWait(promptReboot) + [Ran(Reboot)]
    ensures r.outcome == Finished <==> noReboot || !fails(Reboot)
    ensures r.outcome != Finished ==> r.outcome == Raised(CommandFailed(Reboot))
  {
    if noReboot then Log([Told(SkippedReboot)], dirs)
    else ShStep(RebootWait(promptReboot), [Reboot], true, dirs, fails)
  }

  /** install.py:167-191: the directory step, the closing notice and the reboot step. */
  function ExecuteTail(plan: Plan, opts: InstallOptions, dirs: Dirs, answer: Prompt -> bool,
                       fails: HostCommand -> bool): (r: Run)
    ensures r.outcome.Finished? || r.outcome.Raised?
    ensures r.outcome.Raised? && r.outcome.error.NotBrewbloxDir? ==> r.dirs == dirs
    ensures r.outcome.Finished? ==> r.dirs == DirStep(plan, opts, dirs, answer, fails).dirs
  {
    var dir := DirStep(plan, opts, dirs, answer, fails);
    Then(dir, Then(Log([Told(InstallDone)], dir.dirs), RebootStep(opts.noReboot, plan.promptReboot, dir.dirs, fails)))
  }

  /** install.py:139-191: the plan carried out. */
  function Execute(plan: Plan, opts: InstallOptions, dirs: Dirs, answer: Prompt -> bool,
                   fails: HostCommand -> bool): (r: Run)
    ensures r.outcome.Finished? || r.outcome.Raised?
    // The directory guard of `init` fires only after the host actions before it, and leaves the table alone.
    ensures r.outcome.Raised? && r.outcome.error.NotBrewbloxDir? ==> Ipv6Enabled in r.trace && r.dirs == dirs
    ensures r.outcome.Finished? ==> r.dirs == DirStep(plan, opts, dirs, answer, fails).dirs
  {
    Then(AptStep(plan.aptInstall, dirs, fails),
    Then(DockerStep(plan.dockerInstall, dirs, fails),
    Then(Ipv6Step(dirs),
    Then(UserStep(plan.dockerUser, dirs, fails),
         ExecuteTail(plan, opts, dirs, answer, fails)))))
  }

  /**
    The `install` command. `modeConfirmed` is the verdict of `confirm_mode`,
    `probes` the host probes, `dirs` the directory table, `defaultDir` the absolute
    path of `./brewblox`, `answer` answers `confirm`, `fails` says which commands fail.
  */
  function InstallRun(opts: InstallOptions, modeConfirmed: bool, probes: Probes, dirs: Dirs,
                      defaultDir: string, answer: Prompt -> bool, fails: HostCommand -> bool): (r: Run)
    ensures r.outcome == Aborted <==> !modeConfirmed
    ensures r.outcome == Aborted ==> r.trace == []
    // Declining the default directory or the erase confirmation returns before any `sh` call.
    ensures r.outcome == Returned ==> Pure(r.trace) && r.dirs == dirs
    ensures r.outcome.Raised? && r.outcome.error.NotBrewbloxDir? ==> Ipv6Enabled in r.trace && r.dirs == dirs
  {
    ResolveChangesNothing(opts, modeConfirmed, probes, dirs, defaultDir, answer);
    match ResolveInstall(opts, modeConfirmed, probes, dirs, defaultDir, answer)
    case Stop(t, outcome) => Run(t, outcome, dirs)
    case Go(t, plan) =>
      var e := Execute(plan, opts, dirs, answer, fails);
      Run(t + e.trace, e.outcome, e.dirs)
  }
}
