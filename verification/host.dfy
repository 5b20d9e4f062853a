/**
  Shared vocabulary of the install commands (brewblox_ctl/commands/install.py):
  the prompts they ask, the notices they log, the host commands they hand to
  `sh`, the trace of everything that happens during a run, and how a run ends.

  The collaborators in `utils` are not part of this model. Each becomes an input:
  an answer oracle for `confirm`, probe results for `command_exists` and
  `is_docker_user`, a directory table for `path_exists`/`is_empty_dir`/
  `is_brewblox_dir`, and a failure oracle for the commands `sh` runs.
*/
module Host {

  datatype Option<T> = None | Some(value: T)

  /** What the directory probes report about a path; a path that is not a key of the table does not exist. */
  datatype DirState =
    | EmptyDir                          // exists and `is_empty_dir`
    | Managed(env: map<string, string>) // non-empty and `is_brewblox_dir`; `env` is its `.env` file
    | Foreign                           // non-empty and not a Brewblox directory

  type Dirs = map<string, DirState>

  /** A click boolean flag declared with `default=None`: unset, `--x` or `--no-x`. */
  datatype Tri = Unset | Yes | No {
    /** The flag holds `True` or `False` rather than `None`, as `is None` distinguishes. */
    predicate IsSet() { !Unset? }
  }

  /** The questions `utils.confirm` is asked. */
  datatype Prompt =
    | UseDefaultsPrompt      // 'Do you want to install with default settings?'
    | AptPrompt              // 'Do you want to install apt packages ...?'
    | DockerInstallPrompt    // 'Do you want to install docker?'
    | DockerUserPrompt       // 'Do you want to run docker commands without sudo?'
    | DefaultDirPrompt       // "The default directory is '...'. Do you want to continue?"
    | EraseExistingPrompt    // 'The `dir` directory already exists. ... erase the current contents?'
    | RebootPromptPrompt     // 'A reboot is required ... prompted before that happens?'
    | EraseManagedPrompt     // init: '`dir` already exists. Do you want to continue and erase its content?'

  /** The messages `utils.info` logs. */
  datatype Notice =
    | AptUnavailable | AptPackageList
    | DockerAlreadyInstalled | AlreadyDockerUser
    | InstallingApt | SkippedApt
    | InstallingDocker | SkippedDocker
    | AddingDockerUser | SkippedDockerUser
    | CreatingDir | SettingEnv
    | InstallDone
    | PressEnterToReboot | RebootingSoon | SkippedReboot
    | FlasherPull | StoppingServices | Flashing | StartingParticle | ParticleExitHint
    | WifiDisabled | WifiUseUsb | WifiUseServicePage

  /** The commands the install commands hand to `sh`, by identity. */
  datatype HostCommand =
    | AptUpdate | AptUpgrade | AptInstallDeps   // 'sudo apt update', 'sudo apt upgrade -y', 'sudo apt install -y <deps>'
    | GetDocker                                 // 'curl -sL get.docker.com | sh'
    | AddDockerGroup                            // 'sudo usermod -aG docker $USER'
    | WipeContents(dir: string)                 // 'sudo rm -rf <dir>/' followed by a glob star
    | MakeDir(dir: string)                      // 'mkdir -p <dir>'
    | TouchEnv(dir: string)                     // 'touch <dir>/.env'
    | Reboot                                    // 'sudo reboot'
    | ShellLine(line: string)                   // a literal command line (the flasher commands)

  /** One observable step of a run. */
  datatype Event =
    | Asked(prompt: Prompt)
    | Told(notice: Notice)
    | Ran(command: HostCommand)
    | Ipv6Enabled
    | SnapshotLoaded(dir: string, file: string)
    | EnvSet(key: string, value: string)
    | WaitedForEnter
    | Slept(seconds: nat)
  {
    /** The step changes the host: it runs a command or writes configuration. */
    predicate Mutates() {
      Ran? || Ipv6Enabled? || SnapshotLoaded? || EnvSet?
    }
  }

  /** No step of `trace` changes the host. */
  predicate Pure(trace: seq<Event>)
    decreases |trace|
  {
    trace == [] || (!trace[0].Mutates() && Pure(trace[1..]))
  }

  lemma {:induction false} PureIff(trace: seq<Event>)
    ensures Pure(trace) <==> forall i :: 0 <= i < |trace| ==> !trace[i].Mutates()
    decreases |trace|
  {
    if trace != [] {
      PureIff(trace[1..]);
      assert forall i :: 0 < i < |trace| ==> trace[i] == trace[1..][i - 1];
    }
  }

  /** Log lines alone never change the host. */
  lemma ToldIsPure(t: seq<Event>)
    requires forall i :: 0 <= i < |t| ==> t[i].Told?
    ensures Pure(t)
  {
    PureIff(t);
  }

  lemma PureAppend(a: seq<Event>, b: seq<Event>)
    ensures Pure(a + b) <==> Pure(a) && Pure(b)
  {
    PureIff(a);
    PureIff(b);
    PureIff(a + b);
    if Pure(a) && Pure(b) {
      forall i | 0 <= i < |a + b|
        ensures !(a + b)[i].Mutates()
      {
        if i < |a| { assert (a + b)[i] == a[i]; } else { assert (a + b)[i] == b[i - |a|]; }
      }
    }
    if Pure(a + b) {
      forall i | 0 <= i < |a| ensures !a[i].Mutates() { assert (a + b)[i] == a[i]; }
      forall i | 0 <= i < |b| ensures !b[i].Mutates() { assert (a + b)[|a| + i] == b[i]; }
    }
  }

  /** The steps of `trace` that change the host, in order. */
  function Mutations(trace: seq<Event>): (m: seq<Event>)
    ensures |m| <= |trace|
    ensures forall i :: 0 <= i < |m| ==> m[i].Mutates()
    ensures Pure(trace) <==> m == []
    decreases |trace|
  {
    if trace == [] then []
    else
      var rest := Mutations(trace[1..]);
      assert forall i :: 0 < i < |trace| ==> trace[i] == trace[1..][i - 1];
      if trace[0].Mutates() then [trace[0]] + rest else rest
  }

  lemma {:induction false} MutationsAppend(a: seq<Event>, b: seq<Event>)
    ensures Mutations(a + b) == Mutations(a) + Mutations(b)
    decreases |a|
  {
    if a == [] {
      assert a + b == b;
    } else {
      assert (a + b)[1..] == a[1..] + b;
      MutationsAppend(a[1..], b);
    }
  }

  lemma MutationsCons(e: Event, rest: seq<Event>)
    ensures Mutations([e] + rest) == (if e.Mutates() then [e] else []) + Mutations(rest)
  {
    assert ([e] + rest)[1..] == rest;
  }

  /** A step that changes the host occurs in a trace exactly when it occurs among the trace's changes. */
  lemma {:induction false} MutationsMember(trace: seq<Event>, e: Event)
    requires e.Mutates()
    ensures e in Mutations(trace) <==> e in trace
    decreases |trace|
  {
    if trace != [] {
      MutationsCons(trace[0], trace[1..]);
      assert trace == [trace[0]] + trace[1..];
      MutationsMember(trace[1..], e);
    }
  }

  /** Every event of an `sh` call changes the host. */
  lemma {:induction false} MutationsRan(cmds: seq<HostCommand>)
    ensures Mutations(RanEvents(cmds)) == RanEvents(cmds)
    decreases |cmds|
  {
    if cmds != [] {
      assert RanEvents(cmds) == [Ran(cmds[0])] + RanEvents(cmds[1..]);
      MutationsCons(Ran(cmds[0]), RanEvents(cmds[1..]));
      MutationsRan(cmds[1..]);
    }
  }

  /** How a run ended. */
  datatype Outcome =
    | Finished                      // ran to the end
    | Returned                      // the operator declined a prompt: a clean early `return`
    | Aborted                       // `confirm_mode` or `confirm_usb` refused to go on
    | Raised(error: Error)          // an exception propagated

  datatype Error =
    | NotBrewbloxDir(dir: string)   // FileExistsError('`dir` is not a Brewblox directory.')
    | CommandFailed(command: HostCommand)  // a checked `sh` command exited non-zero

  /** A whole run: what happened, how it ended, and the directory table afterwards. */
  datatype Run = Run(trace: seq<Event>, outcome: Outcome, dirs: Dirs)

  /** The commands `sh` actually ran, and the one that raised, if any. */
  datatype ShResult = ShResult(ran: seq<HostCommand>, failed: bool)

  /** The position of the first command in `cmds` that fails, or `|cmds|` when none does. */
  function FirstFailure(cmds: seq<HostCommand>, fails: HostCommand -> bool): (n: nat)
    ensures n <= |cmds|
    ensures forall i :: 0 <= i < n ==> !fails(cmds[i])
    ensures n < |cmds| ==> fails(cmds[n])
    decreases |cmds|
  {
    if cmds == [] || fails(cmds[0]) then 0
    else
      var n := FirstFailure(cmds[1..], fails);
      assert forall i :: 1 <= i < |cmds| ==> cmds[i] == cmds[1..][i - 1];
      1 + n
  }

  /**
    `sh(cmds, check)`: runs the commands in order. With `check` the first failing
    command raises and nothing after it runs; without `check` failures are ignored.
  */
  function Sh(cmds: seq<HostCommand>, check: bool, fails: HostCommand -> bool): (r: ShResult)
    ensures r.failed <==> check && exists i :: 0 <= i < |cmds| && fails(cmds[i])
    ensures r.ran <= cmds
    ensures !r.failed ==> r.ran == cmds
    ensures r.failed ==> |r.ran| > 0 && fails(r.ran[|r.ran| - 1])
                         && forall i :: 0 <= i < |r.ran| - 1 ==> !fails(r.ran[i])
  {
    if !check then ShResult(cmds, false)
    else
      var n := FirstFailure(cmds, fails);
      if n < |cmds| then ShResult(cmds[..n + 1], true) else ShResult(cmds, false)
  }

  /** The trace events of an `sh` call. */
  function RanEvents(cmds: seq<HostCommand>): (trace: seq<Event>)
    ensures |trace| == |cmds|
    ensures forall i :: 0 <= i < |cmds| ==> trace[i] == Ran(cmds[i])
  {
    seq(|cmds|, i requires 0 <= i < |cmds| => Ran(cmds[i]))
  }

  /** Sequential composition: `next` happens only if `first` ran to the end. */
  function Then(first: Run, next: Run): (r: Run)
    ensures r.outcome == Finished <==> first.outcome == Finished && next.outcome == Finished
    ensures first.outcome != Finished ==> r == first
    ensures first.outcome == Finished ==> r.trace == first.trace + next.trace && r.dirs == next.dirs
  {
    if first.outcome == Finished then Run(first.trace + next.trace, next.outcome, next.dirs) else first
  }

  /** A step that only logs or waits. */
  function Log(events: seq<Event>, dirs: Dirs): Run {
    Run(events, Finished, dirs)
  }

  /** `sh(cmds)` preceded by `intro`; with `check` the first failing command raises. */
  function ShStep(intro: seq<Event>, cmds: seq<HostCommand>, check: bool, dirs: Dirs,
                  fails: HostCommand -> bool): (r: Run)
    requires |cmds| > 0
    ensures r.dirs == dirs
    ensures r.outcome.Finished? || r.outcome.Raised?
    ensures r.outcome.Finished? <==> !check || forall i :: 0 <= i < |cmds| ==> !fails(cmds[i])
    ensures r.outcome.Raised? ==> exists i :: 0 <= i < |cmds| && r.outcome == Raised(CommandFailed(cmds[i])) && fails(cmds[i])
    ensures r.outcome.Finished? ==> r.trace == intro + RanEvents(cmds)
    // Whatever the outcome, the trace is the introduction followed by commands run.
    ensures |r.trace| > |intro| && r.trace[..|intro|] == intro
    ensures forall i :: |intro| <= i < |r.trace| ==> r.trace[i].Ran?
  {
    var sh := Sh(cmds, check, fails);
    IntroThenRan(intro, sh.ran);
    if sh.failed then
      var last := sh.ran[|sh.ran| - 1];
      assert last == cmds[|sh.ran| - 1];
      Run(intro + RanEvents(sh.ran), Raised(CommandFailed(last)), dirs)
    else Run(intro + RanEvents(sh.ran), Finished, dirs)
  }

  lemma IntroThenRan(intro: seq<Event>, ran: seq<HostCommand>)
    requires |ran| > 0
    ensures var t := intro + RanEvents(ran);
      && |t| > |intro| && t[..|intro|] == intro
      && forall i :: |intro| <= i < |t| ==> t[i].Ran?
  {
    var t := intro + RanEvents(ran);
    assert forall i :: |intro| <= i < |t| ==> t[i] == RanEvents(ran)[i - |intro|];
  }
}
