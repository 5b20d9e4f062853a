/**
  The legacy command classes of brewblox_ctl/commands.py: each command builds a
  list of shell lines and hands it to `run_all`, which announces the list, waits
  for ENTER and runs the lines one by one with `check_call`.

  `sudo` stands for the `optsudo` attribute, `tag` for `docker_tag()` or
  `ctl_lib_tag()`, `py` for `const.PY`, and `composeExists` answers
  `path_exists('./docker-compose.yml')`. `check_config` is not part of this model.
*/
module Legacy {
  import opened Host
  import opened DotEnv
  import opened ShellText

  // ---------------------------------------------------------------------------
  // Names in the menu

  /** `s.ljust(width)`: `s` padded on the right with spaces up to `width` characters. */
  function LJust(s: string, width: nat): (r: string)
    ensures |r| == if |s| < width then width else |s|
    ensures r[..|s|] == s
    ensures forall i :: |s| <= i < |r| ==> r[i] == ' '
  {
    if |s| >= width then s else s + seq(width - |s|, _ => ' ')
  }

  /** The width of the keyword column. */
  const KeywordWidth: nat := 15

  /** The six legacy commands, in the order of `ALL_COMMANDS`. */
  datatype LegacyCommand = ComposeUp | ComposeDown | InstallCmd | FirmwareFlash | Bootloader | WiFi {
    function Keyword(): string {
      match this
      case ComposeUp => "up"
      case ComposeDown => "down"
      case InstallCmd => "install"
      case FirmwareFlash => "flash"
      case Bootloader => "bootloader"
      case WiFi => "wifi"
    }

    function Description(): string {
      match this
      case ComposeUp => "Start all services if not running"
      case ComposeDown => "Stop running services"
      case InstallCmd => "Install a new BrewBlox system"
      case FirmwareFlash => "Flash firmware on Spark"
      case Bootloader => "Flash bootloader on Spark"
      case WiFi => "Connect Spark to WiFi"
    }
  }

  const AllCommands: seq<LegacyCommand> := [ComposeUp, ComposeDown, InstallCmd, FirmwareFlash, Bootloader, WiFi]

  /**
    `Command.__str__` (commands.py:20-21): the keyword padded to the column width,
    one space, then the description.
  */
  function Describe(keyword: string, description: string): (r: string)
    ensures var column := if |keyword| < KeywordWidth then KeywordWidth else |keyword|;
      && |r| == column + 1 + |description|
      && r[..|keyword|] == keyword
      && (forall i :: |keyword| <= i <= column ==> r[i] == ' ')
      && r[column + 1..] == description
  {
    var padded := LJust(keyword, KeywordWidth);
    assert (padded + " " + description)[..|padded|] == padded;
    padded + " " + description
  }

  /**
    `str(command)` for a legacy command (commands.py:20-21). Every keyword is shorter
    than the column, so every description starts in the same column.
  */
  function MenuLine(c: LegacyCommand): (r: string)
    ensures |r| == KeywordWidth + 1 + |c.Description()|
    ensures r[..|c.Keyword()|] == c.Keyword()
    ensures forall i :: |c.Keyword()| <= i <= KeywordWidth ==> r[i] == ' '
    ensures r[KeywordWidth + 1..] == c.Description()
  {
    Describe(c.Keyword(), c.Description())
  }

  /** No two commands of `ALL_COMMANDS` (commands.py:216-223) share a keyword. */
  lemma KeywordsDistinct(i: nat, j: nat)
    requires i < |AllCommands| && j < |AllCommands| && i != j
    ensures AllCommands[i].Keyword() != AllCommands[j].Keyword()
  {
    var a, b := AllCommands[i].Keyword(), AllCommands[j].Keyword();
    assert |a| != |b| || a[0] != b[0];
  }

  // ---------------------------------------------------------------------------
  // Command lists

  const IgnoreThisError: string := "\"you can ignore this error\""
  const CtlLibImage: string := "brewblox/brewblox-ctl-lib:"

  /**
    The words of the `lib_commands` steps (commands.py:42-51): fetch `brewblox_ctl_lib`
    out of its image. Removing the old container, pulling the image and removing the
    old local copy may fail harmlessly, so only those three carry a `||` fallback;
    every step but the local `rm` is a docker call.
  */
  function LibSteps(tag: string): (r: seq<seq<string>>)
    ensures |r| == 6
    ensures forall i :: 0 <= i < |r| ==> |r[i]| > 0 && ("||" in r[i] <==> i == 0 || i == 1 || i == 3)
    ensures forall i :: 0 <= i < |r| ==> (r[i][0] == "docker" <==> i != 3)
  {
    [ ["docker", "rm", "ctl-lib", "||", "echo", IgnoreThisError],
      ["docker", "pull", CtlLibImage + tag, "||", "true"],
      ["docker", "create", "--name", "ctl-lib", CtlLibImage + tag],
      ["rm", "-rf", "./brewblox_ctl_lib", "||", "echo", IgnoreThisError],
      ["docker", "cp", "ctl-lib:/brewblox_ctl_lib", "./"],
      ["docker", "rm", "ctl-lib"] ]
  }

  /** The `lib_commands` lines: each step's words, behind the `sudo` prefix exactly when the step calls docker. */
  function LibCommands(sudo: string, tag: string): (r: seq<string>)
    ensures |r| == |LibSteps(tag)|
    ensures forall i :: 0 <= i < |r| ==>
              r[i] == (if LibSteps(tag)[i][0] == "docker" then sudo else "") + Words(LibSteps(tag)[i])
  {
    var steps := LibSteps(tag);
    [ sudo + Words(steps[0]), sudo + Words(steps[1]), sudo + Words(steps[2]),
      Words(steps[3]), sudo + Words(steps[4]), sudo + Words(steps[5]) ]
  }

  /** commands.py:70-79 */
  function ComposeUpLines(sudo: string): seq<string> {
    [sudo + Words(["docker-compose", "up", "-d"])]
  }

  /** commands.py:58-67 */
  function ComposeDownLines(sudo: string): seq<string> {
    [ComposeDownLine(sudo)]
  }

  /** The legacy flasher run: like `run_flasher`, but without mounting `/dev`. */
  function LegacyFlasherLine(sudo: string, tag: string, args: string): string {
    sudo + Words(["docker", "run", "-it", "--rm", "--privileged", FlasherImage + tag, args])
  }

  /**
    The firmware command lists (commands.py:152-213): stop the services if a compose
    file exists, pull the flasher image, then run the flasher once per step of `steps`.
  */
  function FirmwareLines(sudo: string, tag: string, composeExists: bool, steps: seq<string>): (r: seq<string>)
    ensures |r| == (if composeExists then 1 else 0) + 1 + |steps|
    ensures composeExists ==> r[0] == ComposeDownLine(sudo)
    ensures var p := if composeExists then 1 else 0;
      && r[p] == FlasherPullLine(sudo, tag)
      && forall k :: 0 <= k < |steps| ==> r[p + 1 + k] == LegacyFlasherLine(sudo, tag, steps[k])
  {
    (if composeExists then [ComposeDownLine(sudo)] else [])
    + [FlasherPullLine(sudo, tag)]
    + seq(|steps|, k requires 0 <= k < |steps| => LegacyFlasherLine(sudo, tag, steps[k]))
  }

  /** commands.py:148-168: the DFU trigger runs before the flash. */
  const FlashSteps: seq<string> := ["trigger-dfu", "flash"]
  /** commands.py:171-191 */
  const BootloaderSteps: seq<string> := ["flash-bootloader"]
  /** commands.py:194-213 */
  const WiFiSteps: seq<string> := ["wifi"]

  // ---------------------------------------------------------------------------
  // run_all

  /** What `run_all` did: the announced list, the lines it ran, and the results if none raised. */
  datatype RunAllResult = RunAllResult(announced: seq<string>, ran: seq<string>, codes: Option<seq<int>>)

  /**
    `run_all` (commands.py:33-40): announce the list, then `check_call` each line in
    order. `check_call` returns 0, or raises `CalledProcessError` for a line that
    `fails`, and then no later line runs and no list is returned.
  */
  method RunAll(cmds: seq<string>, announce: bool, fails: string -> bool) returns (r: RunAllResult)
    ensures r.announced == (if announce then cmds else [])
    ensures r.codes.Some? <==> forall i :: 0 <= i < |cmds| ==> !fails(cmds[i])
    ensures r.codes.Some? ==> r.ran == cmds && r.codes.value == seq(|cmds|, _ => 0)
    // A failing line is the last one run: every line before it succeeded.
    ensures r.codes.None? ==> exists n :: 0 <= n < |cmds| && r.ran == cmds[..n + 1] && fails(cmds[n])
                                         && forall i :: 0 <= i < n ==> !fails(cmds[i])
    // The same lines run as under `sh` with checking.
    ensures ShellLines(r.ran) == Sh(ShellLines(cmds), true, LineFails(fails)).ran
  {
    var announced := if announce then cmds else [];
    var codes: seq<int> := [];
    var i := 0;
    while i < |cmds| && !fails(cmds[i])
      invariant 0 <= i <= |cmds|
      invariant forall j :: 0 <= j < i ==> !fails(cmds[j])
      invariant codes == seq(i, _ => 0)
    {
      codes := codes + [0];
      i := i + 1;
    }
    if i < |cmds| {
      ShFirstFailure(cmds, fails, i);
      r := RunAllResult(announced, cmds[..i + 1], None);
    } else {
      ShNoFailure(cmds, fails);
      r := RunAllResult(announced, cmds, Some(codes));
    }
  }

  /** The lines as commands `sh` runs. */
  function ShellLines(lines: seq<string>): (cmds: seq<HostCommand>)
    ensures |cmds| == |lines|
    ensures forall i :: 0 <= i < |lines| ==> cmds[i] == ShellLine(lines[i])
  {
    seq(|lines|, i requires 0 <= i < |lines| => ShellLine(lines[i]))
  }

  /** The failure oracle of `run_all`, lifted to commands. */
  function LineFails(fails: string -> bool): HostCommand -> bool {
    (c: HostCommand) => c.ShellLine? && fails(c.line)
  }

  lemma ShNoFailure(cmds: seq<string>, fails: string -> bool)
    requires forall j :: 0 <= j < |cmds| ==> !fails(cmds[j])
    ensures Sh(ShellLines(cmds), true, LineFails(fails)).ran == ShellLines(cmds)
  {
    var c := ShellLines(cmds);
    assert forall j :: 0 <= j < |c| ==> !LineFails(fails)(c[j]);
  }

  lemma ShFirstFailure(cmds: seq<string>, fails: string -> bool, i: nat)
    requires i < |cmds| && fails(cmds[i])
    requires forall j :: 0 <= j < i ==> !fails(cmds[j])
    ensures Sh(ShellLines(cmds), true, LineFails(fails)).ran == ShellLines(cmds[..i + 1])
  {
    var c := ShellLines(cmds);
    var f := LineFails(fails);
    var sh := Sh(c, true, f);
    assert f(c[i]);
    var n := |sh.ran|;
    assert sh.ran == c[..n];
    assert f(c[n - 1]);
    assert n == i + 1;
  }

  // ---------------------------------------------------------------------------
  // InstallCommand

  /** The questions `InstallCommand` asks with `confirm`. */
  datatype LegacyPrompt =
    | UpgradeAptPrompt          // 'Do you want to upgrade apt packages?'
    | InstallDockerPrompt       // 'Do you want to install Docker?'
    | DockerWithoutSudoPrompt   // 'Do you want to run Docker commands without sudo?'
    | InstallComposePrompt      // 'Do you want to install docker-compose (from pip)?'
    | ContinueExistingPrompt    // '<dir> already exists. Do you want to continue?'
    | RebootNowPrompt           // 'A reboot will be required, do you want to do so?'

  /** The host probes `InstallCommand` consults. */
  datatype LegacyHost = LegacyHost(aptExists: bool, dockerExists: bool, isDockerUser: bool, composeExists: bool)

  /** What `InstallCommand.action` decided: the questions, the directory, and the lines (none if it returned early). */
  datatype InstallScript = InstallScript(asked: seq<LegacyPrompt>, target: string, rebootRequired: bool,
                                         lines: Option<seq<string>>)

  /** `str.rstrip('/')` */
  function RStripSlash(s: string): (r: string)
    ensures r <= s
    ensures r == [] || r[|r| - 1] != '/'
    ensures forall i :: |r| <= i < |s| ==> s[i] == '/'
    decreases |s|
  {
    if |s| > 0 && s[|s| - 1] == '/' then RStripSlash(s[..|s| - 1]) else s
  }

  const RebootLine: string := "sudo reboot"
  const AptLines: seq<string> := ["sudo apt update", "sudo apt upgrade -y"]
  const DockerInstallLine: string := "curl -sSL https://get.docker.com | sh"
  const DockerUserLine: string := "sudo usermod -aG docker $USER"

  function ComposeInstallLine(py: string): string {
    "sudo " + py + " -m pip install -U docker-compose"
  }

  /** The release `InstallCommand` writes: stable releases are not offered yet. */
  const LegacyRelease: string := "edge"

  /** commands.py:135-140: create the directory and its `.env`, then set the release and the configuration version. */
  function DirectoryLines(py: string, target: string): seq<string> {
    [ Words(["mkdir", "-p", target]),
      Words(["touch", target + "/.env"]),
      py + " -m dotenv.cli --quote never -f " + target + "/.env set " + ReleaseKey + " " + LegacyRelease,
      py + " -m dotenv.cli --quote never -f " + target + "/.env set " + CfgVersionKey + " " + InitialCfgVersion ]
  }

  /** One dependency: asked only when its probe leaves it open (`elif confirm(...)`). */
  datatype Offer = Offer(asked: seq<LegacyPrompt>, chosen: bool)

  function MakeOffer(open: bool, prompt: LegacyPrompt, answer: LegacyPrompt -> bool): (o: Offer)
    ensures o.chosen <==> open && answer(prompt)
    ensures o.asked == (if open then [prompt] else [])
  {
    if open then Offer([prompt], answer(prompt)) else Offer([], false)
  }

  /** The lines of the accepted dependencies, in the order `action` adds them. */
  function DependencyLines(apt: bool, docker: bool, user: bool, compose: bool, py: string): (lines: seq<string>)
    ensures RebootLine !in lines
    // Each dependency contributes its lines exactly when it was accepted.
    ensures DockerInstallLine in lines <==> docker
    ensures DockerUserLine in lines <==> user
    ensures forall l :: l in lines ==>
              l in AptLines || l == DockerInstallLine || l == DockerUserLine || l == ComposeInstallLine(py)
  {
    var compLine := ComposeInstallLine(py);
    assert |compLine| > |RebootLine| && |compLine| > |DockerUserLine|;
    assert DockerInstallLine[0] == 'c' && compLine[0] == 's';
    assert DockerUserLine != AptLines[0] && DockerUserLine != AptLines[1];
    (if apt then AptLines else [])
    + (if docker then [DockerInstallLine] else [])
    + (if user then [DockerUserLine] else [])
    + (if compose then [compLine] else [])
  }

  /** The questions `action` asks about dependencies: one per dependency its probe leaves open. */
  function DependencyQuestions(host: LegacyHost): (asked: seq<LegacyPrompt>)
    ensures ContinueExistingPrompt !in asked && RebootNowPrompt !in asked
    ensures UpgradeAptPrompt in asked <==> host.aptExists
    ensures InstallDockerPrompt in asked <==> !host.dockerExists
    ensures DockerWithoutSudoPrompt in asked <==> !host.isDockerUser
    ensures InstallComposePrompt in asked <==> !host.composeExists
  {
    var a := if host.aptExists then [UpgradeAptPrompt] else [];
    var d := if !host.dockerExists then [InstallDockerPrompt] else [];
    var u := if !host.isDockerUser then [DockerWithoutSudoPrompt] else [];
    var c := if !host.composeExists then [InstallComposePrompt] else [];
    InConcat(a, d, u, c);
    a + d + u + c
  }

  /** Membership in four joined lists. */
  lemma InConcat<T>(a: seq<T>, b: seq<T>, c: seq<T>, d: seq<T>)
    ensures forall x :: x in a + b + c + d <==> x in a || x in b || x in c || x in d
  {
  }

  /** commands.py:86-117: the dependency questions and their lines. */
  function Dependencies(host: LegacyHost, py: string, answer: LegacyPrompt -> bool): (s: InstallScript)
    // A reboot is needed exactly when docker is installed or the user joins its group.
    ensures s.rebootRequired <==> (!host.dockerExists && answer(InstallDockerPrompt))
                                  || (!host.isDockerUser && answer(DockerWithoutSudoPrompt))
    ensures s.lines == Some(DependencyLines(host.aptExists && answer(UpgradeAptPrompt),
                                            !host.dockerExists && answer(InstallDockerPrompt),
                                            !host.isDockerUser && answer(DockerWithoutSudoPrompt),
                                            !host.composeExists && answer(InstallComposePrompt), py))
    // A question is asked only when its probe leaves the dependency open.
    ensures s.asked == DependencyQuestions(host)
  {
    var apt := MakeOffer(host.aptExists, UpgradeAptPrompt, answer);
    var docker := MakeOffer(!host.dockerExists, InstallDockerPrompt, answer);
    var user := MakeOffer(!host.isDockerUser, DockerWithoutSudoPrompt, answer);
    var compose := MakeOffer(!host.composeExists, InstallComposePrompt, answer);
    InstallScript(apt.asked + docker.asked + user.asked + compose.asked, "",
                  docker.chosen || user.chosen,
                  Some(DependencyLines(apt.chosen, docker.chosen, user.chosen, compose.chosen, py)))
  }

  /**
    commands.py:135-143: the dependency lines, the four directory lines, and
    `sudo reboot` last when `reboot` holds.
  */
  function ScriptLines(deps: seq<string>, py: string, target: string, reboot: bool): (lines: seq<string>)
    ensures |lines| == |deps| + 4 + (if reboot then 1 else 0)
    ensures lines[..|deps|] == deps
    ensures lines[|deps|..|deps| + 4] == DirectoryLines(py, target)
    ensures RebootLine !in deps ==> (RebootLine in lines <==> reboot)
    ensures reboot ==> lines[|lines| - 1] == RebootLine
    ensures forall l :: l in lines ==> l in deps || l in DirectoryLines(py, target) || l == RebootLine
  {
    var dirLines := DirectoryLines(py, target);
    DirectoryLinesAreNotReboot(py, target);
    var lines := deps + dirLines + (if reboot then [RebootLine] else []);
    assert lines[..|deps|] == deps;
    assert lines[|deps|..|deps| + 4] == dirLines;
    assert RebootLine in lines <==> RebootLine in deps || RebootLine in dirLines || reboot;
    lines
  }

  /** The questions after the dependencies: the existing directory, then the reboot once the script goes ahead. */
  function LaterQuestions(targetExists: bool, proceeds: bool, rebootRequired: bool): (asked: seq<LegacyPrompt>)
    ensures ContinueExistingPrompt in asked <==> targetExists
    ensures RebootNowPrompt in asked <==> proceeds && rebootRequired
  {
    (if targetExists then [ContinueExistingPrompt] else []) + (if proceeds && rebootRequired then [RebootNowPrompt] else [])
  }

  /**
    `InstallCommand.action` (commands.py:86-145) up to the `run_all` call. `selected`
    is the answer to `select`, `existing` the paths for which `path_exists` holds.
  */
  function InstallCommandScript(host: LegacyHost, py: string, selected: string, existing: set<string>,
                                answer: LegacyPrompt -> bool): (s: InstallScript)
    ensures s.target == RStripSlash(selected)
    ensures s.rebootRequired == Dependencies(host, py, answer).rebootRequired
    ensures s.asked == DependencyQuestions(host) + LaterQuestions(s.target in existing, s.lines.Some?, s.rebootRequired)
    // Declining an existing directory returns before `run_all`; `sudo reboot` is appended only on consent.
    ensures s.lines.None? <==> s.target in existing && !answer(ContinueExistingPrompt)
    ensures s.lines.Some? ==>
              s.lines.value == ScriptLines(Dependencies(host, py, answer).lines.value, py, s.target,
                                           s.rebootRequired && answer(RebootNowPrompt))
  {
    var deps := Dependencies(host, py, answer);
    var target := RStripSlash(selected);
    var proceeds := target !in existing || answer(ContinueExistingPrompt);
    var asked := deps.asked + LaterQuestions(target in existing, proceeds, deps.rebootRequired);
    if !proceeds then InstallScript(asked, target, deps.rebootRequired, None)
    else
      var reboot := deps.rebootRequired && answer(RebootNowPrompt);
      InstallScript(asked, target, deps.rebootRequired, Some(ScriptLines(deps.lines.value, py, target, reboot)))
  }

  /**
    The questions of `InstallCommand.action`: the dependency questions, then the
    existing directory needs consent, and the reboot question follows only when the
    script goes ahead and a dependency needs the reboot.
  */
  lemma InstallCommandQuestions(host: LegacyHost, py: string, selected: string, existing: set<string>,
                                answer: LegacyPrompt -> bool)
    ensures var s := InstallCommandScript(host, py, selected, existing, answer);
      && s.asked[..|DependencyQuestions(host)|] == DependencyQuestions(host)
      && (ContinueExistingPrompt in s.asked <==> s.target in existing)
      && (RebootNowPrompt in s.asked <==> s.lines.Some? && s.rebootRequired)
  {
    var s := InstallCommandScript(host, py, selected, existing, answer);
    assert s.asked[..|DependencyQuestions(host)|] == DependencyQuestions(host);
  }

  /** The lines of a script that went ahead: the directory is always set up, and a consented reboot comes last. */
  lemma ScriptEndsWithReboot(host: LegacyHost, py: string, selected: string, existing: set<string>,
                             answer: LegacyPrompt -> bool)
    requires InstallCommandScript(host, py, selected, existing, answer).lines.Some?
    ensures var s := InstallCommandScript(host, py, selected, existing, answer);
      var lines := s.lines.value;
      && |lines| >= 4
      && (RebootLine in lines <==> s.rebootRequired && answer(RebootNowPrompt))
      && (s.rebootRequired && answer(RebootNowPrompt) ==> lines[|lines| - 1] == RebootLine)
  {
  }

  lemma DirectoryLinesAreNotReboot(py: string, target: string)
    ensures RebootLine !in DirectoryLines(py, target)
  {
    var d := DirectoryLines(py, target);
    assert d[0][0] == 'm' && d[1][0] == 't';
    assert |d[2]| > |RebootLine| && |d[3]| > |RebootLine|;
  }

  /**
    The end of `InstallCommand.action`: `run_all` of the script's lines, unless the
    operator declined the existing directory and `action` returned.
  */
  method RunInstallScript(s: InstallScript, fails: string -> bool) returns (run: Option<RunAllResult>)
    ensures run.None? <==> s.lines.None?
    ensures run.Some? ==> run.value.announced == s.lines.value && run.value.ran <= s.lines.value
    ensures run.Some? ==> (run.value.codes.Some? <==> forall i :: 0 <= i < |s.lines.value| ==> !fails(s.lines.value[i]))
    ensures run.Some? && run.value.codes.Some? ==> run.value.ran == s.lines.value
  {
    if s.lines.None? {
      run := None;
    } else {
      var r := RunAll(s.lines.value, true, fails);
      run := Some(r);
    }
  }

  /**
    The action of every other legacy command: its lines, run after announcing them.
    The firmware commands first wait for ENTER (`prompt_usb`), which is not modelled.
  */
  function CommandLines(c: LegacyCommand, sudo: string, tag: string, composeExists: bool): seq<string>
    requires c != InstallCmd
  {
    match c
    case ComposeUp => ComposeUpLines(sudo)
    case ComposeDown => ComposeDownLines(sudo)
    case FirmwareFlash => FirmwareLines(sudo, tag, composeExists, FlashSteps)
    case Bootloader => FirmwareLines(sudo, tag, composeExists, BootloaderSteps)
    case WiFi => FirmwareLines(sudo, tag, composeExists, WiFiSteps)
  }
}
