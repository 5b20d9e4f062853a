/**
  The firmware commands of brewblox_ctl/commands/install.py:234-324: `flash` and
  `particle` confirm the mode and the USB connection, pull the flasher image, stop
  the running services and then run the flasher container; `wifi` is disabled and
  only logs where to configure Wifi instead.

  `tag` stands for `utils.docker_tag(release)` and `sudo` for `utils.optsudo()`;
  `composeExists` answers `utils.path_exists('./docker-compose.yml')`, and
  `usbConfirmed` is the verdict of `utils.confirm_usb()`.
*/
module Flasher {
  import opened Host
  import opened ShellText

  /** The options `run_flasher` passes to `docker run`. */
  const FlasherOptions: seq<string> := ["-it", "--rm", "--privileged", "-v", "/dev:/dev"]

  /** The `docker run` line of `run_flasher`: the prefix, the options, the tagged flasher image and its arguments. */
  function FlasherRunLine(sudo: string, tag: string, args: string): string {
    sudo + Words(["docker", "run"] + FlasherOptions + [FlasherImage + tag, args])
  }

  /** install.py:234-244: pull the image if asked, then stop the services if a compose file exists. */
  function PrepareFlasher(sudo: string, tag: string, pull: bool, composeExists: bool, dirs: Dirs,
                          fails: HostCommand -> bool): (r: Run)
    ensures r.dirs == dirs
    ensures r.outcome.Finished? || r.outcome.Raised?
    ensures r.outcome.Finished? <==>
              !(pull && fails(ShellLine(FlasherPullLine(sudo, tag))))
              && !(composeExists && fails(ShellLine(ComposeDownLine(sudo))))
    // A failing pull raises before the services are stopped.
    ensures pull && fails(ShellLine(FlasherPullLine(sudo, tag))) ==>
              r.outcome == Raised(CommandFailed(ShellLine(FlasherPullLine(sudo, tag))))
  {
    var pulled := if pull then ShStep([Told(FlasherPull)], [ShellLine(FlasherPullLine(sudo, tag))], true, dirs, fails)
                  else Log([], dirs);
    var stopped := if composeExists then ShStep([Told(StoppingServices)], [ShellLine(ComposeDownLine(sudo))], true, dirs, fails)
                   else Log([], dirs);
    Then(pulled, stopped)
  }

  /** install.py:247-251 */
  function RunFlasher(sudo: string, tag: string, intro: seq<Event>, args: string, dirs: Dirs,
                      fails: HostCommand -> bool): Run
  {
    ShStep(intro, [ShellLine(FlasherRunLine(sudo, tag, args))], true, dirs, fails)
  }

  /**
    The shared shape of `flash` and `particle`: both confirmations, the preparation,
    then the announcement `intro` and the flasher run with `args`.
  */
  function FlasherCommand(sudo: string, tag: string, pull: bool, composeExists: bool,
                          modeConfirmed: bool, usbConfirmed: bool, intro: seq<Event>, args: string,
                          dirs: Dirs, fails: HostCommand -> bool): (r: Run)
    ensures r.dirs == dirs
    // Without both confirmations nothing is pulled, stopped or run.
    ensures r.outcome == Aborted <==> !modeConfirmed || !usbConfirmed
    ensures r.outcome == Aborted ==> r.trace == []
    ensures r.outcome.Finished? <==>
              && modeConfirmed && usbConfirmed
              && !(pull && fails(ShellLine(FlasherPullLine(sudo, tag))))
              && !(composeExists && fails(ShellLine(ComposeDownLine(sudo))))
              && !fails(ShellLine(FlasherRunLine(sudo, tag, args)))
  {
    if !modeConfirmed || !usbConfirmed then Run([], Aborted, dirs)
    else Then(PrepareFlasher(sudo, tag, pull, composeExists, dirs, fails),
              RunFlasher(sudo, tag, intro, args, dirs, fails))
  }

  /** install.py:254-275: `flash`. */
  function Flash(sudo: string, tag: string, pull: bool, composeExists: bool, modeConfirmed: bool,
                 usbConfirmed: bool, dirs: Dirs, fails: HostCommand -> bool): Run
  {
    FlasherCommand(sudo, tag, pull, composeExists, modeConfirmed, usbConfirmed, [Told(Flashing)], "flash", dirs, fails)
  }

  /** install.py:303-324: `particle`, running the flasher with the `--command` text (default ''). */
  function Particle(sudo: string, tag: string, pull: bool, command: string, composeExists: bool,
                    modeConfirmed: bool, usbConfirmed: bool, dirs: Dirs, fails: HostCommand -> bool): Run
  {
    FlasherCommand(sudo, tag, pull, composeExists, modeConfirmed, usbConfirmed,
                   [Told(StartingParticle), Told(ParticleExitHint)], command, dirs, fails)
  }

  /** install.py:278-300: `wifi` is disabled; it logs three notices and does nothing else. */
  function Wifi(dirs: Dirs): (r: Run)
    ensures r.outcome == Finished && r.dirs == dirs
    ensures Pure(r.trace) && Mutations(r.trace) == []
    ensures forall e :: e in r.trace ==> e.Told?
  {
    var t := [Told(WifiDisabled), Told(WifiUseUsb), Told(WifiUseServicePage)];
    assert t[1..][1..][1..] == [];
    Run(t, Finished, dirs)
  }
}

/** The order of the firmware commands' host changes. */
module FlasherFacts {
  import opened Host
  import opened ShellText
  import opened Flasher

  /** The commands a finished flasher command runs: pull, stop the services, run the flasher. */
  function FlasherActions(sudo: string, tag: string, pull: bool, composeExists: bool, args: string): seq<Event> {
    (if pull then [Ran(ShellLine(FlasherPullLine(sudo, tag)))] else [])
    + (if composeExists then [Ran(ShellLine(ComposeDownLine(sudo)))] else [])
    + [Ran(ShellLine(FlasherRunLine(sudo, tag, args)))]
  }

  lemma NoticesArePure(t: seq<Event>)
    requires forall i :: 0 <= i < |t| ==> t[i].Told?
    ensures Mutations(t) == []
  {
    PureIff(t);
  }

  lemma SingleStepActions(intro: seq<Event>, line: string, dirs: Dirs, fails: HostCommand -> bool)
    requires forall i :: 0 <= i < |intro| ==> intro[i].Told?
    requires !fails(ShellLine(line))
    ensures ShStep(intro, [ShellLine(line)], true, dirs, fails).outcome == Finished
    ensures Mutations(ShStep(intro, [ShellLine(line)], true, dirs, fails).trace) == [Ran(ShellLine(line))]
  {
    NoticesArePure(intro);
    MutationsAppend(intro, RanEvents([ShellLine(line)]));
    MutationsRan([ShellLine(line)]);
    assert RanEvents([ShellLine(line)]) == [Ran(ShellLine(line))];
  }

  /**
    A finished `flash` or `particle` pulls the image first (unless `--no-pull`), then
    stops the services (if a compose file exists), and runs the flasher last.
  */
  lemma FlasherOrder(sudo: string, tag: string, pull: bool, composeExists: bool, modeConfirmed: bool,
                     usbConfirmed: bool, intro: seq<Event>, args: string, dirs: Dirs, fails: HostCommand -> bool)
    requires forall i :: 0 <= i < |intro| ==> intro[i].Told?
    requires FlasherCommand(sudo, tag, pull, composeExists, modeConfirmed, usbConfirmed, intro, args, dirs, fails).outcome
             == Finished
    ensures Mutations(FlasherCommand(sudo, tag, pull, composeExists, modeConfirmed, usbConfirmed, intro, args, dirs, fails).trace)
         == FlasherActions(sudo, tag, pull, composeExists, args)
  {
    var prep := PrepareFlasher(sudo, tag, pull, composeExists, dirs, fails);
    var run := RunFlasher(sudo, tag, intro, args, dirs, fails);
    PrepareActions(sudo, tag, pull, composeExists, dirs, fails);
    SingleStepActions(intro, FlasherRunLine(sudo, tag, args), dirs, fails);
    MutationsAppend(prep.trace, run.trace);
  }

  /** The flasher run announces itself with `intro` after the preparation. */
  lemma IntroBeforeRun(sudo: string, tag: string, pull: bool, composeExists: bool, intro: seq<Event>,
                       args: string, dirs: Dirs, fails: HostCommand -> bool, k: nat)
    requires k < |intro|
    requires FlasherCommand(sudo, tag, pull, composeExists, true, true, intro, args, dirs, fails).outcome == Finished
    ensures intro[k] in FlasherCommand(sudo, tag, pull, composeExists, true, true, intro, args, dirs, fails).trace
  {
    var prep := PrepareFlasher(sudo, tag, pull, composeExists, dirs, fails);
    var run := RunFlasher(sudo, tag, intro, args, dirs, fails);
    assert FlasherCommand(sudo, tag, pull, composeExists, true, true, intro, args, dirs, fails) == Then(prep, run);
    assert run.trace[k] == intro[k] by {
      assert run.trace[..|intro|] == intro;
    }
    InLaterPart(prep.trace, run.trace, k);
  }

  lemma InLaterPart<T>(a: seq<T>, b: seq<T>, k: nat)
    requires k < |b|
    ensures b[k] in a + b
  {
    assert (a + b)[|a| + k] == b[k];
  }

  /**
    `flash` (install.py:254-275): a finished run says it is flashing, and its host
    changes are the pull, the stop and the flasher run with the argument `flash`.
  */
  lemma FlashOrder(sudo: string, tag: string, pull: bool, composeExists: bool, modeConfirmed: bool,
                   usbConfirmed: bool, dirs: Dirs, fails: HostCommand -> bool)
    requires Flash(sudo, tag, pull, composeExists, modeConfirmed, usbConfirmed, dirs, fails).outcome == Finished
    ensures var r := Flash(sudo, tag, pull, composeExists, modeConfirmed, usbConfirmed, dirs, fails);
      && Told(Flashing) in r.trace
      && Mutations(r.trace) == FlasherActions(sudo, tag, pull, composeExists, "flash")
  {
    FlasherOrder(sudo, tag, pull, composeExists, modeConfirmed, usbConfirmed, [Told(Flashing)], "flash", dirs, fails);
    IntroBeforeRun(sudo, tag, pull, composeExists, [Told(Flashing)], "flash", dirs, fails, 0);
  }

  /**
    `particle` (install.py:303-324): a finished run gives the exit hint, and its host
    changes are the pull, the stop and the flasher run with the `--command` text.
  */
  lemma ParticleOrder(sudo: string, tag: string, pull: bool, command: string, composeExists: bool,
                      modeConfirmed: bool, usbConfirmed: bool, dirs: Dirs, fails: HostCommand -> bool)
    requires Particle(sudo, tag, pull, command, composeExists, modeConfirmed, usbConfirmed, dirs, fails).outcome == Finished
    ensures var r := Particle(sudo, tag, pull, command, composeExists, modeConfirmed, usbConfirmed, dirs, fails);
      && Told(ParticleExitHint) in r.trace
      && Mutations(r.trace) == FlasherActions(sudo, tag, pull, composeExists, command)
  {
    var intro := [Told(StartingParticle), Told(ParticleExitHint)];
    FlasherOrder(sudo, tag, pull, composeExists, modeConfirmed, usbConfirmed, intro, command, dirs, fails);
    IntroBeforeRun(sudo, tag, pull, composeExists, intro, command, dirs, fails, 1);
  }

  /** A finished preparation pulls the image (if asked), then stops the services (if there are any). */
  lemma PrepareActions(sudo: string, tag: string, pull: bool, composeExists: bool, dirs: Dirs, fails: HostCommand -> bool)
    requires PrepareFlasher(sudo, tag, pull, composeExists, dirs, fails).outcome == Finished
    ensures Mutations(PrepareFlasher(sudo, tag, pull, composeExists, dirs, fails).trace)
         == (if pull then [Ran(ShellLine(FlasherPullLine(sudo, tag)))] else [])
            + (if composeExists then [Ran(ShellLine(ComposeDownLine(sudo)))] else [])
  {
    var pullLine := FlasherPullLine(sudo, tag);
    var downLine := ComposeDownLine(sudo);
    var pulled := if pull then ShStep([Told(FlasherPull)], [ShellLine(pullLine)], true, dirs, fails) else Log([], dirs);
    var stopped := if composeExists then ShStep([Told(StoppingServices)], [ShellLine(downLine)], true, dirs, fails)
                   else Log([], dirs);
    MutationsAppend(pulled.trace, stopped.trace);
    if pull { SingleStepActions([Told(FlasherPull)], pullLine, dirs, fails); }
    if composeExists { SingleStepActions([Told(StoppingServices)], downLine, dirs, fails); }
  }

  /** A failing pull raises before the services are stopped or the flasher runs. */
  lemma PullFailureStopsEverything(sudo: string, tag: string, composeExists: bool, intro: seq<Event>, args: string,
                                   dirs: Dirs, fails: HostCommand -> bool)
    requires fails(ShellLine(FlasherPullLine(sudo, tag)))
    ensures var r := FlasherCommand(sudo, tag, true, composeExists, true, true, intro, args, dirs, fails);
      && r.outcome == Raised(CommandFailed(ShellLine(FlasherPullLine(sudo, tag))))
      && Mutations(r.trace) == [Ran(ShellLine(FlasherPullLine(sudo, tag)))]
  {
    var line := ShellLine(FlasherPullLine(sudo, tag));
    var r := ShStep([Told(FlasherPull)], [line], true, dirs, fails);
    assert Sh([line], true, fails) == ShResult([line], true);
    assert r.trace == [Told(FlasherPull)] + RanEvents([line]);
    assert RanEvents([line]) == [Ran(line)];
    MutationsCons(Told(FlasherPull), [Ran(line)]);
    MutationsCons(Ran(line), []);
  }
}
