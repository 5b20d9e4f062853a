/**
  The decision half of `install` (brewblox_ctl/commands/install.py:79-137): every
  question is asked and every probe consulted before the host is changed, and
  the answers are folded into a `Plan` that the action half then carries out.
*/
module Resolve {
  import opened Host

  /** The command-line options of `install`. */
  datatype InstallOptions = InstallOptions(
    useDefaults: Tri,
    aptInstall: Tri,
    dockerInstall: Tri,
    dockerUser: Tri,
    dir: Option<string>,
    noReboot: bool,
    release: string,             // click default 'edge'
    snapshotFile: Option<string>)

  /** What the host probes report: `command_exists('apt')`, `command_exists('docker')`, `is_docker_user()`. */
  datatype Probes = Probes(aptAvailable: bool, dockerInstalled: bool, inDockerGroup: bool)

  /** One resolved capability decision, with the events of resolving it. */
  datatype Decision = Decision(value: bool, trace: seq<Event>)

  /** The value `Decide` settles on, given the operator's `answered` reply. */
  predicate Wanted(flag: Tri, satisfied: bool, useDefaults: bool, answered: bool) {
    !satisfied && (if flag.IsSet() then flag == Yes else useDefaults || answered)
  }

  /**
    The three capability decisions (install.py:89-121): a capability the probe finds
    already `satisfied` is off, whatever the flag says (the probe's `notices` are
    logged); otherwise a set flag is kept, `use_defaults` says yes, and only then
    is the operator asked.
  */
  function Decide(flag: Tri, satisfied: bool, notices: seq<Event>, useDefaults: bool,
                  prompt: Prompt, answer: Prompt -> bool): (d: Decision)
    ensures satisfied ==> !d.value && d.trace == notices
    ensures !satisfied && flag.IsSet() ==> d.value == (flag == Yes) && d.trace == []
    ensures !satisfied && !flag.IsSet() && useDefaults ==> d.value && d.trace == []
    ensures !satisfied && !flag.IsSet() && !useDefaults ==> d.value == answer(prompt) && d.trace == [Asked(prompt)]
    ensures Pure(notices) ==> Pure(d.trace)
    ensures d.value == Wanted(flag, satisfied, useDefaults, answer(prompt))
  {
    var trace := if satisfied then notices else [];
    var flag := if satisfied then No else flag;
    if flag.IsSet() then Decision(flag == Yes, trace)
    else if useDefaults then Decision(true, trace)
    else Decision(answer(prompt), trace + [Asked(prompt)])
  }

  /** The resolved decisions `install` acts on. */
  datatype Plan = Plan(
    useDefaults: bool,
    aptInstall: bool,
    dockerInstall: bool,
    dockerUser: bool,
    dir: string,
    promptReboot: bool)

  /** Either a plan to carry out, or the way `install` stopped before changing anything. */
  datatype Resolution =
    | Go(trace: seq<Event>, plan: Plan)
    | Stop(trace: seq<Event>, outcome: Outcome)

  /** The three capability decisions, resolved in the order apt, docker, docker group. */
  datatype Capabilities = Capabilities(trace: seq<Event>, apt: bool, docker: bool, user: bool)

  /** install.py:89-121. */
  function ResolveCapabilities(opts: InstallOptions, probes: Probes, useDefaults: bool,
                               answer: Prompt -> bool): (c: Capabilities)
    ensures Pure(c.trace)
    ensures c.apt == Wanted(opts.aptInstall, !probes.aptAvailable, useDefaults, answer(AptPrompt))
    ensures c.docker == Wanted(opts.dockerInstall, probes.dockerInstalled, useDefaults, answer(DockerInstallPrompt))
    ensures c.user == Wanted(opts.dockerUser, probes.inDockerGroup, useDefaults, answer(DockerUserPrompt))
  {
    var apt := Decide(opts.aptInstall, !probes.aptAvailable, [Told(AptUnavailable), Told(AptPackageList)],
                      useDefaults, AptPrompt, answer);
    var docker := Decide(opts.dockerInstall, probes.dockerInstalled, [Told(DockerAlreadyInstalled)],
                         useDefaults, DockerInstallPrompt, answer);
    var user := Decide(opts.dockerUser, probes.inDockerGroup, [Told(AlreadyDockerUser)],
                       useDefaults, DockerUserPrompt, answer);
    ToldIsPure([Told(AptUnavailable), Told(AptPackageList)]);
    ToldIsPure([Told(DockerAlreadyInstalled)]);
    ToldIsPure([Told(AlreadyDockerUser)]);
    PureAppend(apt.trace, docker.trace);
    PureAppend(apt.trace + docker.trace, user.trace);
    Capabilities(apt.trace + docker.trace + user.trace, apt.value, docker.value, user.value)
  }

  /** One decision asks its own question exactly when the probe, the flag and `use_defaults` leave it open. */
  lemma DecideAsks(flag: Tri, satisfied: bool, notices: seq<Event>, useDefaults: bool,
                   prompt: Prompt, answer: Prompt -> bool, p: Prompt)
    requires forall i :: 0 <= i < |notices| ==> notices[i].Told?
    ensures Asked(p) in Decide(flag, satisfied, notices, useDefaults, prompt, answer).trace <==>
              p == prompt && !satisfied && !flag.IsSet() && !useDefaults
  {
  }

  /** Each capability question is asked exactly when its probe, its flag and `use_defaults` leave it open. */
  lemma CapabilityQuestions(opts: InstallOptions, probes: Probes, useDefaults: bool, answer: Prompt -> bool, p: Prompt)
    ensures Asked(p) in ResolveCapabilities(opts, probes, useDefaults, answer).trace <==>
              || (p == AptPrompt && probes.aptAvailable && !opts.aptInstall.IsSet() && !useDefaults)
              || (p == DockerInstallPrompt && !probes.dockerInstalled && !opts.dockerInstall.IsSet() && !useDefaults)
              || (p == DockerUserPrompt && !probes.inDockerGroup && !opts.dockerUser.IsSet() && !useDefaults)
  {
    var aptNotices := [Told(AptUnavailable), Told(AptPackageList)];
    var apt := Decide(opts.aptInstall, !probes.aptAvailable, aptNotices, useDefaults, AptPrompt, answer);
    var docker := Decide(opts.dockerInstall, probes.dockerInstalled, [Told(DockerAlreadyInstalled)],
                         useDefaults, DockerInstallPrompt, answer);
    var user := Decide(opts.dockerUser, probes.inDockerGroup, [Told(AlreadyDockerUser)],
                       useDefaults, DockerUserPrompt, answer);
    DecideAsks(opts.aptInstall, !probes.aptAvailable, aptNotices, useDefaults, AptPrompt, answer, p);
    DecideAsks(opts.dockerInstall, probes.dockerInstalled, [Told(DockerAlreadyInstalled)],
               useDefaults, DockerInstallPrompt, answer, p);
    DecideAsks(opts.dockerUser, probes.inDockerGroup, [Told(AlreadyDockerUser)],
               useDefaults, DockerUserPrompt, answer, p);
    assert ResolveCapabilities(opts, probes, useDefaults, answer).trace == apt.trace + docker.trace + user.trace;
  }

  /** install.py:84-87: `use_defaults` comes from its flag, else from the first question. */
  function UseDefaultsDecision(flag: Tri, answer: Prompt -> bool): (d: Decision)
    ensures flag.IsSet() ==> d.value == (flag == Yes) && d.trace == []
    ensures !flag.IsSet() ==> d.value == answer(UseDefaultsPrompt) && d.trace == [Asked(UseDefaultsPrompt)]
  {
    if flag.IsSet() then Decision(flag == Yes, []) else Decision(answer(UseDefaultsPrompt), [Asked(UseDefaultsPrompt)])
  }

  /** The directory `install` works on: the option, else the default one. */
  function ChosenDir(opts: InstallOptions, defaultDir: string): string {
    if opts.dir.Some? then opts.dir.value else defaultDir
  }

  /**
    install.py:123-137, after the capabilities: the default directory needs the
    operator's consent unless `use_defaults`; an existing directory needs the
    erase confirmation; the reboot question is asked unless `--no-reboot`.
  */
  function ResolveDir(opts: InstallOptions, useDefaults: bool, caps: Capabilities, before: seq<Event>,
                      dirs: Dirs, defaultDir: string, answer: Prompt -> bool): (r: Resolution)
    ensures r.Stop? ==> r.outcome == Returned
    ensures r.Stop? <==> (opts.dir.None? && !useDefaults && !answer(DefaultDirPrompt))
                         || (ChosenDir(opts, defaultDir) in dirs && !answer(EraseExistingPrompt))
    ensures r.Go? ==> r.plan == Plan(useDefaults, caps.apt, caps.docker, caps.user, ChosenDir(opts, defaultDir),
                                     opts.noReboot || answer(RebootPromptPrompt))
    ensures before <= r.trace
  {
    var t2 := if opts.dir.Some? || useDefaults then before else before + [Asked(DefaultDirPrompt)];
    if opts.dir.None? && !useDefaults && !answer(DefaultDirPrompt) then Stop(t2, Returned)
    else
      var dir := ChosenDir(opts, defaultDir);
      var t3 := if dir in dirs then t2 + [Asked(EraseExistingPrompt)] else t2;
      if dir in dirs && !answer(EraseExistingPrompt) then Stop(t3, Returned)
      else
        var t4 := if opts.noReboot then t3 else t3 + [Asked(RebootPromptPrompt)];
        var promptReboot := if opts.noReboot then true else answer(RebootPromptPrompt);
        Go(t4, Plan(useDefaults, caps.apt, caps.docker, caps.user, dir, promptReboot))
  }

  /** The questions of the directory stage, one prompt at a time. */
  lemma DirQuestions(opts: InstallOptions, useDefaults: bool, caps: Capabilities, before: seq<Event>,
                     dirs: Dirs, defaultDir: string, answer: Prompt -> bool, p: Prompt)
    ensures var r := ResolveDir(opts, useDefaults, caps, before, dirs, defaultDir, answer);
      var dirChosen := opts.dir.Some? || useDefaults || answer(DefaultDirPrompt);
      Asked(p) in r.trace <==>
        || Asked(p) in before
        || (p == DefaultDirPrompt && opts.dir.None? && !useDefaults)
        || (p == EraseExistingPrompt && dirChosen && ChosenDir(opts, defaultDir) in dirs)
        || (p == RebootPromptPrompt && r.Go? && !opts.noReboot)
  {
    var t2 := if opts.dir.Some? || useDefaults then before else before + [Asked(DefaultDirPrompt)];
    assert Asked(p) in t2 <==> Asked(p) in before || (p == DefaultDirPrompt && opts.dir.None? && !useDefaults);
    if !(opts.dir.None? && !useDefaults && !answer(DefaultDirPrompt)) {
      var dir := ChosenDir(opts, defaultDir);
      var t3 := if dir in dirs then t2 + [Asked(EraseExistingPrompt)] else t2;
      assert Asked(p) in t3 <==> Asked(p) in t2 || (p == EraseExistingPrompt && dir in dirs);
      if !(dir in dirs && !answer(EraseExistingPrompt)) {
        var t4 := if opts.noReboot then t3 else t3 + [Asked(RebootPromptPrompt)];
        assert Asked(p) in t4 <==> Asked(p) in t3 || (p == RebootPromptPrompt && !opts.noReboot);
      }
    }
  }

  /** The directory stage only asks questions. */
  lemma DirStageChangesNothing(opts: InstallOptions, useDefaults: bool, caps: Capabilities, before: seq<Event>,
                               dirs: Dirs, defaultDir: string, answer: Prompt -> bool)
    requires Pure(before)
    ensures Pure(ResolveDir(opts, useDefaults, caps, before, dirs, defaultDir, answer).trace)
  {
    PureAppend(before, [Asked(DefaultDirPrompt)]);
    var t2 := if opts.dir.Some? || useDefaults then before else before + [Asked(DefaultDirPrompt)];
    PureAppend(t2, [Asked(EraseExistingPrompt)]);
    var t3 := if ChosenDir(opts, defaultDir) in dirs then t2 + [Asked(EraseExistingPrompt)] else t2;
    PureAppend(t3, [Asked(RebootPromptPrompt)]);
  }

  /**
    install.py:79-137. `modeConfirmed` is the verdict of `confirm_mode`,
    `defaultDir` is `path.abspath('./brewblox')`, `dirs` answers `path_exists`.
  */
  function ResolveInstall(opts: InstallOptions, modeConfirmed: bool, probes: Probes, dirs: Dirs,
                          defaultDir: string, answer: Prompt -> bool): (r: Resolution)
    ensures r.Stop? ==> r.outcome == Aborted || r.outcome == Returned
    ensures r.Stop? && r.outcome == Aborted <==> !modeConfirmed
    ensures !modeConfirmed ==> r.trace == []
    ensures r.Go? ==> modeConfirmed
    // `use_defaults` comes from its flag, else from the first question.
    ensures r.Go? ==> r.plan.useDefaults == (if opts.useDefaults.IsSet() then opts.useDefaults == Yes
                                               else answer(UseDefaultsPrompt))
    // The directory is the option, else the default one; an existing one needs the erase confirmation.
    ensures r.Go? ==> r.plan.dir == ChosenDir(opts, defaultDir)
    ensures r.Go? && r.plan.dir in dirs ==> answer(EraseExistingPrompt)
    ensures r.Go? && !opts.noReboot ==> r.plan.promptReboot == answer(RebootPromptPrompt)
  {
    if !modeConfirmed then Stop([], Aborted)
    else
      var ud := UseDefaultsDecision(opts.useDefaults, answer);
      var caps := ResolveCapabilities(opts, probes, ud.value, answer);
      ResolveDir(opts, ud.value, caps, ud.trace + caps.trace, dirs, defaultDir, answer)
  }

  /** Resolving only asks and logs: nothing on the host changes before the plan is carried out. */
  lemma ResolveChangesNothing(opts: InstallOptions, modeConfirmed: bool, probes: Probes, dirs: Dirs,
                              defaultDir: string, answer: Prompt -> bool)
    ensures Pure(ResolveInstall(opts, modeConfirmed, probes, dirs, defaultDir, answer).trace)
  {
    if modeConfirmed {
      var ud := UseDefaultsDecision(opts.useDefaults, answer);
      var caps := ResolveCapabilities(opts, probes, ud.value, answer);
      PureAppend(ud.trace, caps.trace);
      DirStageChangesNothing(opts, ud.value, caps, ud.trace + caps.trace, dirs, defaultDir, answer);
    }
  }
}
