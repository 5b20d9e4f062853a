/**
  The lines the firmware commands of brewblox_ctl/commands/install.py and the legacy
  commands of brewblox_ctl/commands.py build, judged by `check_sudo`
  (brewblox_ctl/testing.py): every docker call carries the `optsudo` prefix, so a
  line is rejected exactly when that prefix is empty — for a user in the docker
  group — and never when it is `sudo `.

  Tags, flasher arguments, interpreter paths and directories are taken to be
  `Plain` (no `;`, `&`, `|` or line break): text that contains a separator can
  smuggle in a docker call of its own.
*/
module SudoLines {
  import opened SudoCheck
  import opened ShellText
  import opened Flasher
  import opened Legacy
  import Host
  import FlasherFacts
  import opened DotEnv

  // ---------------------------------------------------------------------------
  // Scanning past text without separators

  /** Text without separators or line breaks hides no anchor: the scan continues after it. */
  lemma {:induction false} ScanPlainPrefix(a: string, b: string)
    requires Plain(a)
    ensures Scan(a + b) <==> Scan(b)
    decreases |a|
  {
    if |a| == 0 {
      assert a + b == b;
    } else {
      assert (a + b)[1..] == a[1..] + b;
      PlainAppend(a[..1], a[1..]);
      assert a == a[..1] + a[1..];
      ScanPlainPrefix(a[1..], b);
    }
  }

  lemma PlainNeverScans(a: string)
    requires Plain(a)
    ensures !Scan(a)
  {
    ScanPlainPrefix(a, "");
    assert a + "" == a;
  }

  /** `s` begins with the word `docker` (or a longer word such as `docker-compose`). */
  predicate StartsWithDocker(s: string) {
    |s| >= |Docker| && s[..|Docker|] == Docker
  }

  lemma DockerNextAtStart(s: string)
    requires |s| > 0 && !IsSpace(s[0])
    ensures DockerNext(s) <==> StartsWithDocker(s)
  {
    assert LeadingSpaces(s) == 0;
  }

  /** The prefix `sudo ` hides every docker call but those after a separator. */
  lemma SudoPrefix(isDockerUser: bool, w: string)
    ensures Rejects(OptSudo(isDockerUser) + w) <==> if isDockerUser then Rejects(w) else Scan(w)
  {
    var s := OptSudo(isDockerUser) + w;
    if isDockerUser {
      assert s == w;
    } else {
      assert s[0] == 's';
      DockerNextAtStart(s);
      ScanPlainPrefix("sudo ", w);
    }
  }

  /** The tail of `x || y`: `y` is harmless when it is plain and is not a docker call. */
  predicate Harmless(y: string) {
    Plain(y) && |y| > 0 && !IsSpace(y[0]) && !StartsWithDocker(y)
  }

  lemma PipeHarmless(y: string)
    requires Harmless(y)
    ensures !Scan("|" + " " + y)
  {
    var s := "|" + " " + y;
    assert s[1..] == " " + y;
    assert LeadingSpaces(" " + y) == 1 by {
      assert (" " + y)[1..] == y;
    }
    if |y| >= |Docker| {
      assert (" " + y)[1..1 + |Docker|] == y[..|Docker|];
    }
    PlainNeverScans(y);
    ScanPlainPrefix(" ", y);
  }

  lemma OrHarmless(y: string)
    requires Harmless(y)
    ensures !Scan("||" + " " + y)
  {
    var s := "||" + " " + y;
    assert s[1..] == "|" + " " + y;
    DockerNextAtStart(s[1..]);
    PipeHarmless(y);
  }

  // ---------------------------------------------------------------------------
  // Lines made of words

  /** A line whose first word is a docker call is rejected when nothing precedes it. */
  lemma DockerWords(ws: seq<string>)
    requires |ws| > 0 && StartsWithDocker(ws[0])
    ensures Rejects(Words(ws))
  {
    var s := Words(ws);
    assert s[..|ws[0]|] == ws[0];
    assert s[0] == ws[0][0] == 'd';
    DockerNextAtStart(s);
    assert s[..|Docker|] == ws[0][..|Docker|];
  }

  lemma PlainWords(ws: seq<string>)
    requires forall i :: 0 <= i < |ws| ==> Plain(ws[i])
    ensures !Scan(Words(ws))
  {
    PlainNeverScans(Words(ws));
  }

  /** `a || b`: plain words, an or-list, then plain words that do not start with a docker call. */
  lemma OrWords(a: seq<string>, b: seq<string>)
    requires |a| > 0 && |b| > 0
    requires forall i :: 0 <= i < |a| ==> Plain(a[i])
    requires forall i :: 0 <= i < |b| ==> Plain(b[i])
    requires Harmless(Words(b))
    ensures !Scan(Words(a + ["||"] + b))
  {
    var tail := ["||"] + b;
    assert a + ["||"] + b == a + tail;
    WordsAppend(a, tail);
    assert tail[1..] == b;
    assert Words(tail) == "||" + " " + Words(b);
    assert Words(a + tail) == (Words(a) + " ") + ("||" + " " + Words(b));
    PlainAppend(Words(a), " ");
    ScanPlainPrefix(Words(a) + " ", "||" + " " + Words(b));
    OrHarmless(Words(b));
  }

  /** A docker call built from plain words: rejected exactly without `sudo`. */
  lemma SudoDockerWords(isDockerUser: bool, ws: seq<string>)
    requires |ws| > 0 && StartsWithDocker(ws[0])
    requires forall i :: 0 <= i < |ws| ==> Plain(ws[i])
    ensures Rejects(OptSudo(isDockerUser) + Words(ws)) <==> isDockerUser
  {
    SudoPrefix(isDockerUser, Words(ws));
    DockerWords(ws);
    PlainWords(ws);
  }

  lemma ImagesArePlain()
    ensures Plain(FlasherImage) && Plain(CtlLibImage) && Plain(IgnoreThisError)
  {
  }

  /** Plain text that does not open with whitespace or a `d` is never a docker call. */
  lemma PlainNotDocker(s: string)
    requires Plain(s) && |s| > 0 && !IsSpace(s[0]) && s[0] != 'd'
    ensures !Rejects(s)
  {
    DockerNextAtStart(s);
    PlainNeverScans(s);
  }

  // ---------------------------------------------------------------------------
  // The firmware commands of install.py

  lemma FlasherPullChecked(isDockerUser: bool, tag: string)
    requires Plain(tag)
    ensures Rejects(FlasherPullLine(OptSudo(isDockerUser), tag)) <==> isDockerUser
  {
    ImagesArePlain();
    PlainAppend(FlasherImage, tag);
    SudoDockerWords(isDockerUser, ["docker", "pull", FlasherImage + tag]);
  }

  lemma ComposeDownChecked(isDockerUser: bool)
    ensures Rejects(ComposeDownLine(OptSudo(isDockerUser))) <==> isDockerUser
  {
    SudoDockerWords(isDockerUser, ["docker-compose", "down"]);
  }

  lemma FlasherRunChecked(isDockerUser: bool, tag: string, args: string)
    requires Plain(tag) && Plain(args)
    ensures Rejects(FlasherRunLine(OptSudo(isDockerUser), tag, args)) <==> isDockerUser
  {
    ImagesArePlain();
    PlainAppend(FlasherImage, tag);
    var run := ["docker", "run"] + FlasherOptions + [FlasherImage + tag, args];
    assert run == ["docker", "run", "-it", "--rm", "--privileged", "-v", "/dev:/dev", FlasherImage + tag, args];
    SudoDockerWords(isDockerUser, run);
  }

  /**
    `flash` and `particle` (install.py:234-251) prefix every docker call with
    `optsudo`: each of their lines is rejected exactly when the prefix is empty.
  */
  lemma FlasherLinesChecked(isDockerUser: bool, tag: string, args: string)
    requires Plain(tag) && Plain(args)
    ensures var sudo := OptSudo(isDockerUser);
      && (Rejects(FlasherPullLine(sudo, tag)) <==> isDockerUser)
      && (Rejects(ComposeDownLine(sudo)) <==> isDockerUser)
      && (Rejects(FlasherRunLine(sudo, tag, args)) <==> isDockerUser)
  {
    FlasherPullChecked(isDockerUser, tag);
    ComposeDownChecked(isDockerUser);
    FlasherRunChecked(isDockerUser, tag, args);
  }

  // ---------------------------------------------------------------------------
  // The legacy command lists of commands.py

  /** A docker call with an `||` fallback that calls no docker: rejected exactly without `sudo`. */
  lemma SudoDockerOrWords(isDockerUser: bool, a: seq<string>, b: seq<string>)
    requires |a| > 0 && StartsWithDocker(a[0]) && |b| > 0
    requires forall i :: 0 <= i < |a| ==> Plain(a[i])
    requires forall i :: 0 <= i < |b| ==> Plain(b[i])
    requires Harmless(Words(b))
    ensures Rejects(OptSudo(isDockerUser) + Words(a + ["||"] + b)) <==> isDockerUser
  {
    OrWords(a, b);
    DockerWords(a + ["||"] + b);
    SudoPrefix(isDockerUser, Words(a + ["||"] + b));
  }

  /** The fallbacks of `lib_commands`: `echo "you can ignore this error"` and `true`. */
  lemma FallbacksHarmless()
    ensures Harmless(Words(["echo", IgnoreThisError]))
    ensures Harmless(Words(["true"]))
  {
    ImagesArePlain();
    assert Words(["echo", IgnoreThisError])[..4] == "echo";
    assert Words(["true"]) == "true";
  }

  /** `rm -rf ./brewblox_ctl_lib || echo ...` calls no docker at all. */
  lemma LocalRmAccepted()
    ensures !Rejects(Words(["rm", "-rf", "./brewblox_ctl_lib", "||", "echo", IgnoreThisError]))
  {
    var rm := ["rm", "-rf", "./brewblox_ctl_lib", "||", "echo", IgnoreThisError];
    ImagesArePlain();
    FallbacksHarmless();
    assert ["rm", "-rf", "./brewblox_ctl_lib"] + ["||"] + ["echo", IgnoreThisError] == rm;
    OrWords(["rm", "-rf", "./brewblox_ctl_lib"], ["echo", IgnoreThisError]);
    assert Words(rm)[..2] == "rm";
    DockerNextAtStart(Words(rm));
  }

  /** `docker rm ctl-lib || echo "you can ignore this error"` */
  lemma RemoveOrEchoChecked(isDockerUser: bool)
    ensures Rejects(OptSudo(isDockerUser) + Words(["docker", "rm", "ctl-lib", "||", "echo", IgnoreThisError])) <==> isDockerUser
  {
    FallbacksHarmless();
    ImagesArePlain();
    var echo := ["echo", IgnoreThisError];
    assert ["docker", "rm", "ctl-lib"] + ["||"] + echo == ["docker", "rm", "ctl-lib", "||", "echo", IgnoreThisError];
    SudoDockerOrWords(isDockerUser, ["docker", "rm", "ctl-lib"], echo);
  }

  /** `docker pull brewblox/brewblox-ctl-lib:<tag> || true` */
  lemma PullOrTrueChecked(isDockerUser: bool, image: string)
    requires Plain(image)
    ensures Rejects(OptSudo(isDockerUser) + Words(["docker", "pull", image, "||", "true"])) <==> isDockerUser
  {
    FallbacksHarmless();
    assert ["docker", "pull", image] + ["||"] + ["true"] == ["docker", "pull", image, "||", "true"];
    SudoDockerOrWords(isDockerUser, ["docker", "pull", image], ["true"]);
  }

  /** `docker create --name ctl-lib brewblox/brewblox-ctl-lib:<tag>` */
  lemma CreateLineChecked(isDockerUser: bool, image: string)
    requires Plain(image)
    ensures Rejects(OptSudo(isDockerUser) + Words(["docker", "create", "--name", "ctl-lib", image])) <==> isDockerUser
  {
    SudoDockerWords(isDockerUser, ["docker", "create", "--name", "ctl-lib", image]);
  }

  /** `docker cp ctl-lib:/brewblox_ctl_lib ./` */
  lemma CopyLineChecked(isDockerUser: bool)
    ensures Rejects(OptSudo(isDockerUser) + Words(["docker", "cp", "ctl-lib:/brewblox_ctl_lib", "./"])) <==> isDockerUser
  {
    SudoDockerWords(isDockerUser, ["docker", "cp", "ctl-lib:/brewblox_ctl_lib", "./"]);
  }

  /** `docker rm ctl-lib` */
  lemma RemoveLineChecked(isDockerUser: bool)
    ensures Rejects(OptSudo(isDockerUser) + Words(["docker", "rm", "ctl-lib"])) <==> isDockerUser
  {
    SudoDockerWords(isDockerUser, ["docker", "rm", "ctl-lib"]);
  }

  /**
    `lib_commands` (commands.py:42-51): the five docker calls are rejected exactly
    without `sudo`; the local `rm` never is, and the `|| echo` and `|| true`
    fallbacks call no docker.
  */
  lemma LibCommandsChecked(isDockerUser: bool, tag: string)
    requires Plain(tag)
    ensures var lib := LibCommands(OptSudo(isDockerUser), tag);
      forall i :: 0 <= i < |lib| ==> (Rejects(lib[i]) <==> isDockerUser && i != 3)
  {
    var lib := LibCommands(OptSudo(isDockerUser), tag);
    LibHeadChecked(isDockerUser, tag);
    LibTailChecked(isDockerUser, tag);
    forall i | 0 <= i < |lib| ensures Rejects(lib[i]) <==> isDockerUser && i != 3 {
      if i < 3 { assert i == 0 || i == 1 || i == 2; } else { assert i == 3 || i == 4 || i == 5; }
    }
  }

  /** The first three `lib_commands` lines: remove, pull and create the container. */
  lemma LibHeadChecked(isDockerUser: bool, tag: string)
    requires Plain(tag)
    ensures var lib := LibCommands(OptSudo(isDockerUser), tag);
      && (Rejects(lib[0]) <==> isDockerUser)
      && (Rejects(lib[1]) <==> isDockerUser)
      && (Rejects(lib[2]) <==> isDockerUser)
  {
    ImagesArePlain();
    PlainAppend(CtlLibImage, tag);
    RemoveOrEchoChecked(isDockerUser);
    PullOrTrueChecked(isDockerUser, CtlLibImage + tag);
    CreateLineChecked(isDockerUser, CtlLibImage + tag);
  }

  /** The last three `lib_commands` lines: the local `rm`, the copy and the container removal. */
  lemma LibTailChecked(isDockerUser: bool, tag: string)
    ensures var lib := LibCommands(OptSudo(isDockerUser), tag);
      && !Rejects(lib[3])
      && (Rejects(lib[4]) <==> isDockerUser)
      && (Rejects(lib[5]) <==> isDockerUser)
  {
    LocalRmAccepted();
    CopyLineChecked(isDockerUser);
    RemoveLineChecked(isDockerUser);
  }

  /** The legacy flasher run `docker run -it --rm --privileged brewblox/firmware-flasher:<tag> <step>`. */
  lemma LegacyFlasherLineChecked(isDockerUser: bool, tag: string, step: string)
    requires Plain(tag) && Plain(step)
    ensures Rejects(LegacyFlasherLine(OptSudo(isDockerUser), tag, step)) <==> isDockerUser
  {
    ImagesArePlain();
    PlainAppend(FlasherImage, tag);
    SudoDockerWords(isDockerUser, ["docker", "run", "-it", "--rm", "--privileged", FlasherImage + tag, step]);
  }

  /** The firmware command lists (commands.py:148-213): every line is a docker call with `optsudo`. */
  lemma FirmwareLinesChecked(isDockerUser: bool, tag: string, composeExists: bool, steps: seq<string>)
    requires Plain(tag)
    requires forall k :: 0 <= k < |steps| ==> Plain(steps[k])
    ensures var lines := FirmwareLines(OptSudo(isDockerUser), tag, composeExists, steps);
      forall i :: 0 <= i < |lines| ==> (Rejects(lines[i]) <==> isDockerUser)
  {
    var sudo := OptSudo(isDockerUser);
    var lines := FirmwareLines(sudo, tag, composeExists, steps);
    var p := if composeExists then 1 else 0;
    forall i | 0 <= i < |lines| ensures Rejects(lines[i]) <==> isDockerUser {
      if i < p {
        ComposeDownChecked(isDockerUser);
      } else if i == p {
        FlasherPullChecked(isDockerUser, tag);
      } else {
        LegacyFlasherLineChecked(isDockerUser, tag, steps[i - p - 1]);
      }
    }
  }

  lemma StepsArePlain()
    ensures forall k :: 0 <= k < |FlashSteps| ==> Plain(FlashSteps[k])
    ensures forall k :: 0 <= k < |BootloaderSteps| ==> Plain(BootloaderSteps[k])
    ensures forall k :: 0 <= k < |WiFiSteps| ==> Plain(WiFiSteps[k])
  {
  }

  /**
    Every legacy command but `install` (commands.py:58-79, 148-213) prefixes each
    docker call with `optsudo`: its lines are rejected exactly for a docker-group user.
  */
  lemma CommandLinesChecked(c: LegacyCommand, isDockerUser: bool, tag: string, composeExists: bool)
    requires c != InstallCmd && Plain(tag)
    ensures var lines := CommandLines(c, OptSudo(isDockerUser), tag, composeExists);
      && |lines| > 0
      && forall i :: 0 <= i < |lines| ==> (Rejects(lines[i]) <==> isDockerUser)
  {
    var sudo := OptSudo(isDockerUser);
    StepsArePlain();
    match c
    case ComposeUp =>
      SudoDockerWords(isDockerUser, ["docker-compose", "up", "-d"]);
    case ComposeDown =>
      ComposeDownChecked(isDockerUser);
    case FirmwareFlash =>
      FirmwareLinesChecked(isDockerUser, tag, composeExists, FlashSteps);
    case Bootloader =>
      FirmwareLinesChecked(isDockerUser, tag, composeExists, BootloaderSteps);
    case WiFi =>
      FirmwareLinesChecked(isDockerUser, tag, composeExists, WiFiSteps);
  }

  // ---------------------------------------------------------------------------
  // check_sudo over whole command lists

  /** A list of lines as the list argument `run_all` would hand to a mocked `sh`. */
  function AsArgs(lines: seq<string>): (items: seq<ShellArg>)
    ensures |items| == |lines|
    ensures LinesOfAll(items) == lines
  {
    if lines == [] then []
    else
      var rest := AsArgs(lines[1..]);
      var items := [Line(lines[0])] + rest;
      assert items[1..] == rest;
      assert lines == [lines[0]] + lines[1..];
      items
  }

  /** A list in which every line is rejected, or none is, gets the verdict of its first line. */
  lemma UniformVerdict(lines: seq<string>, rejected: bool)
    requires |lines| > 0
    requires forall i :: 0 <= i < |lines| ==> (Rejects(lines[i]) <==> rejected)
    ensures CheckSudo(Batch(AsArgs(lines))) == if rejected then Verdict.Raised(lines[0]) else NoValue
  {
    var v := CheckSudo(Batch(AsArgs(lines)));
    assert LinesOf(Batch(AsArgs(lines))) == lines;
    if rejected {
      assert AnyRejected(lines);
      var i :| FirstRejected(lines, i) && lines[i] == v.offending;
      assert i == 0;
    } else {
      assert !AnyRejected(lines);
    }
  }

  /**
    `check_sudo` on the list any legacy command but `install` runs: it raises on the
    first line for a docker-group user (an empty `optsudo`) and passes otherwise.
  */
  lemma CommandListsPassCheckSudo(c: LegacyCommand, isDockerUser: bool, tag: string, composeExists: bool)
    requires c != InstallCmd && Plain(tag)
    ensures var lines := CommandLines(c, OptSudo(isDockerUser), tag, composeExists);
      CheckSudo(Batch(AsArgs(lines))) == if isDockerUser then Verdict.Raised(lines[0]) else NoValue
  {
    CommandLinesChecked(c, isDockerUser, tag, composeExists);
    UniformVerdict(CommandLines(c, OptSudo(isDockerUser), tag, composeExists), isDockerUser);
  }

  /**
    Every command a finished `flash` or `particle` runs (install.py:234-251) passes
    `check_sudo` unless `optsudo` is empty.
  */
  lemma FlasherActionsChecked(isDockerUser: bool, tag: string, pull: bool, composeExists: bool, args: string)
    requires Plain(tag) && Plain(args)
    ensures var acts := FlasherFacts.FlasherActions(OptSudo(isDockerUser), tag, pull, composeExists, args);
      forall i :: 0 <= i < |acts| ==>
        && acts[i].Ran? && acts[i].command.ShellLine?
        && (CheckSudo(Line(acts[i].command.line)) == Blank <==> !isDockerUser)
  {
    FlasherLinesChecked(isDockerUser, tag, args);
  }

  // ---------------------------------------------------------------------------
  // InstallCommand calls no docker itself

  // The fixed text of the `InstallCommand` lines holds no separator.

  lemma CurlTextIsPlain()
    ensures Plain("curl -sSL https://get.docker.com ")
  {
  }


  lemma PipTextIsPlain()
    ensures Plain(" -m pip install -U docker-compose")
  {
  }


  lemma DotenvTextIsPlain()
    ensures Plain(" -m dotenv.cli --quote never -f ")
  {
  }


  lemma UpgradeTextIsPlain()
    ensures Plain(AptLines[1])
  {
  }


  lemma UsermodTextIsPlain()
    ensures Plain(DockerUserLine)
  {
  }


  /** A plain command piped into a harmless one: `head | tail`. */
  lemma PipedAccepted(head: string, tail: string)
    requires Plain(head) && |head| > 0 && !IsSpace(head[0]) && head[0] != 'd'
    requires Harmless(tail)
    ensures !Rejects(head + "|" + " " + tail)
  {
    var pipe := "|" + " " + tail;
    assert head + "|" + " " + tail == head + pipe;
    ScanPlainPrefix(head, pipe);
    PipeHarmless(tail);
    DockerNextAtStart(head + pipe);
  }

  /** `curl -sSL https://get.docker.com | sh`: the pipe feeds `sh`, not docker. */
  lemma DockerScriptAccepted()
    ensures !Rejects(DockerInstallLine)
  {
    CurlTextIsPlain();
    var head := "curl -sSL https://get.docker.com ";
    PipedAccepted(head, "sh");
    assert DockerInstallLine == head + "|" + " " + "sh";
  }

  /** `sudo <py> -m pip install -U docker-compose` */
  lemma ComposeInstallAccepted(py: string)
    requires Plain(py)
    ensures !Rejects(ComposeInstallLine(py))
  {
    PipTextIsPlain();
    var rest := py + " -m pip install -U docker-compose";
    PlainAppend(py, " -m pip install -U docker-compose");
    assert ComposeInstallLine(py) == OptSudo(false) + rest;
    SudoPrefix(false, rest);
    PlainNeverScans(rest);
  }

  /** `<py> -m dotenv.cli --quote never -f <target>/.env set <key> <value>` */
  lemma SettingLineAccepted(py: string, target: string, key: string, value: string)
    requires Plain(py) && |py| > 0 && py[0] != 'd' && !IsSpace(py[0])
    requires Plain(target) && Plain(key) && Plain(value)
    ensures !Rejects(py + " -m dotenv.cli --quote never -f " + target + "/.env set " + key + " " + value)
  {
    DotenvTextIsPlain();
    var a := py + " -m dotenv.cli --quote never -f ";
    PlainAppend(py, " -m dotenv.cli --quote never -f ");
    PlainAppend(a, target);
    PlainAppend(a + target, "/.env set ");
    PlainAppend(a + target + "/.env set ", key);
    PlainAppend(a + target + "/.env set " + key, " ");
    PlainAppend(a + target + "/.env set " + key + " ", value);
    var line := a + target + "/.env set " + key + " " + value;
    assert line[0] == py[0];
    PlainNotDocker(line);
  }

  /** `mkdir -p <target>` and `touch <target>/.env` */
  lemma CreationLinesAccepted(target: string)
    requires Plain(target)
    ensures !Rejects(Words(["mkdir", "-p", target]))
    ensures !Rejects(Words(["touch", target + "/.env"]))
  {
    PlainAppend(target, "/.env");
    var mkdir := Words(["mkdir", "-p", target]);
    var touch := Words(["touch", target + "/.env"]);
    assert mkdir[..5] == "mkdir";
    PlainNotDocker(mkdir);
    assert touch[..5] == "touch";
    PlainNotDocker(touch);
  }

  /** The four directory lines of `InstallCommand` (commands.py:135-140). */
  lemma DirectoryLinesAccepted(py: string, target: string)
    requires Plain(py) && |py| > 0 && py[0] != 'd' && !IsSpace(py[0])
    requires Plain(target)
    ensures forall i :: 0 <= i < 4 ==> !Rejects(DirectoryLines(py, target)[i])
  {
    CreationLinesAccepted(target);
    SettingLineAccepted(py, target, ReleaseKey, LegacyRelease);
    SettingLineAccepted(py, target, CfgVersionKey, InitialCfgVersion);
  }

  lemma UpdateAccepted()
    ensures !Rejects(AptLines[0])
  {
    assert AptLines[0] == "sudo apt" + " update";
    PlainAppend("sudo apt", " update");
    PlainNotDocker(AptLines[0]);
  }

  lemma UpgradeAccepted()
    ensures !Rejects(AptLines[1])
  {
    UpgradeTextIsPlain();
    PlainNotDocker(AptLines[1]);
  }

  lemma UsermodAccepted()
    ensures !Rejects(DockerUserLine)
  {
    UsermodTextIsPlain();
    PlainNotDocker(DockerUserLine);
  }

  lemma RebootAccepted()
    ensures !Rejects(RebootLine)
  {
    assert RebootLine == "sudo" + " reboot";
    PlainAppend("sudo", " reboot");
    PlainNotDocker(RebootLine);
  }

  /** No line of `lines` makes `check_sudo` raise. */
  ghost predicate AllAccepted(lines: seq<string>) {
    forall i :: 0 <= i < |lines| ==> !Rejects(lines[i])
  }

  /** Each line a dependency can contribute (commands.py:90-117). */
  lemma KnownLineAccepted(l: string, py: string)
    requires Plain(py)
    requires l in AptLines || l == DockerInstallLine || l == DockerUserLine || l == ComposeInstallLine(py)
    ensures !Rejects(l)
  {
    if l == AptLines[0] {
      UpdateAccepted();
    } else if l == AptLines[1] {
      UpgradeAccepted();
    } else if l == DockerInstallLine {
      DockerScriptAccepted();
    } else if l == DockerUserLine {
      UsermodAccepted();
    } else {
      ComposeInstallAccepted(py);
    }
  }

  /** The dependency lines of `InstallCommand` (commands.py:90-117). */
  lemma DependencyLinesAccepted(apt: bool, docker: bool, user: bool, compose: bool, py: string)
    requires Plain(py)
    ensures AllAccepted(DependencyLines(apt, docker, user, compose, py))
  {
    var lines := DependencyLines(apt, docker, user, compose, py);
    forall i | 0 <= i < |lines| ensures !Rejects(lines[i]) {
      assert lines[i] in lines;
      KnownLineAccepted(lines[i], py);
    }
  }

  /** The whole script of commands.py:135-145, given accepted dependency lines. */
  lemma ScriptLinesAccepted(deps: seq<string>, py: string, target: string, reboot: bool)
    requires AllAccepted(deps)
    requires Plain(py) && |py| > 0 && py[0] != 'd' && !IsSpace(py[0])
    requires Plain(target)
    ensures AllAccepted(ScriptLines(deps, py, target, reboot))
  {
    var lines := ScriptLines(deps, py, target, reboot);
    var dir := DirectoryLines(py, target);
    DirectoryLinesAccepted(py, target);
    RebootAccepted();
    forall i | 0 <= i < |lines| ensures !Rejects(lines[i]) {
      if i < |deps| {
        assert lines[i] == lines[..|deps|][i];
      } else if i < |deps| + 4 {
        assert lines[i] == lines[|deps|..|deps| + 4][i - |deps|];
      }
    }
  }

  /**
    `InstallCommand` (commands.py:86-145) never calls docker directly: it installs
    docker through `curl ... | sh` and joins the group with `sudo usermod`, so each
    line of its script passes `check_sudo`, whatever the answers. The interpreter
    path `py` is taken not to start with a `d`, and it and the directory are plain.
  */
  lemma InstallScriptAccepted(host: LegacyHost, py: string, selected: string, existing: set<string>,
                              answer: LegacyPrompt -> bool)
    requires Plain(py) && |py| > 0 && py[0] != 'd' && !IsSpace(py[0])
    requires Plain(RStripSlash(selected))
    ensures var s := InstallCommandScript(host, py, selected, existing, answer);
      s.lines.Some? ==> AllAccepted(s.lines.value)
  {
    var s := InstallCommandScript(host, py, selected, existing, answer);
    if s.lines.Some? {
      DependenciesAccepted(host, py, answer);
      ScriptLinesAccepted(Dependencies(host, py, answer).lines.value, py, s.target,
                          s.rebootRequired && answer(RebootNowPrompt));
    }
  }

  lemma DependenciesAccepted(host: LegacyHost, py: string, answer: LegacyPrompt -> bool)
    requires Plain(py)
    ensures AllAccepted(Dependencies(host, py, answer).lines.value)
  {
    DependencyLinesAccepted(host.aptExists && answer(UpgradeAptPrompt),
                            !host.dockerExists && answer(InstallDockerPrompt),
                            !host.isDockerUser && answer(DockerWithoutSudoPrompt),
                            !host.composeExists && answer(InstallComposePrompt), py);
  }

  // ---------------------------------------------------------------------------
  // The lines the helper's documentation describes

  /** Leading whitespace is skipped before `docker` is looked for. */
  lemma SpaceSkipped(c: char, t: string)
    requires IsSpace(c)
    ensures DockerNext([c] + t) <==> DockerNext(t)
  {
    var s := [c] + t;
    assert s[1..] == t;
    var n := LeadingSpaces(t);
    assert LeadingSpaces(s) == n + 1;
    if n + |Docker| <= |t| {
      assert s[n + 1..n + 1 + |Docker|] == t[n..n + |Docker|];
    }
  }

  /** Any run of whitespace before `docker` is skipped. */
  lemma {:induction false} SpacesThenDocker(w: string, t: string)
    requires forall i | 0 <= i < |w| :: IsSpace(w[i])
    ensures DockerNext(w + Docker + t)
    decreases |w|
  {
    if w == [] {
      assert w + Docker + t == Docker + t;
      assert !IsSpace((Docker + t)[0]);
      assert (Docker + t)[0..|Docker|] == Docker;
    } else {
      SpacesThenDocker(w[1..], t);
      assert w + Docker + t == [w[0]] + (w[1..] + Docker + t);
      SpaceSkipped(w[0], w[1..] + Docker + t);
    }
  }

  /** A line that starts with `docker`, whatever follows, is rejected. */
  lemma DirectCallRejected(t: string)
    ensures Rejects(Docker + t)
  {
    SpacesThenDocker([], t);
    assert [] + Docker + t == Docker + t;
  }

  /** So is one that starts with any whitespace and then `docker`. */
  lemma IndentedCallRejected(w: string, t: string)
    requires forall i | 0 <= i < |w| :: IsSpace(w[i])
    ensures Rejects(w + Docker + t)
  {
    SpacesThenDocker(w, t);
  }

  /**
    A `docker` call after a separator on the first line is rejected, whatever comes
    before the separator: `ls; docker ps` and, with `p` = `ls &`, `ls && docker ps`.
  */
  lemma SeparatedCallRejected(p: string, c: char, t: string)
    requires forall i | 0 <= i < |p| :: p[i] != '\n'
    requires IsSeparator(c) && DockerNext(t)
    ensures Rejects(p + [c] + t)
  {
    var s := p + [c] + t;
    var k := |p| + 1;
    assert s[k - 1] == c;
    assert forall i | 0 <= i < k - 1 :: s[i] == p[i];
    assert AnchorAt(s, k);
    assert s[k..] == t;
    AnchorIsScanned(s, k);
  }

  /**
    Only the first line is searched for a separator, but what follows the separator
    may run onto the next line: whitespace, the line break included, is skipped before
    `docker`, so `ls;` then `docker ps` on the next line is rejected.
  */
  lemma BreakAfterSeparatorRejected(p: string, c: char, t: string)
    requires forall i | 0 <= i < |p| :: p[i] != '\n'
    requires IsSeparator(c)
    ensures Rejects(p + [c] + ("\n" + Docker + t))
  {
    SpacesThenDocker("\n", t);
    SeparatedCallRejected(p, c, "\n" + Docker + t);
  }

  lemma MockedLineIsPlain()
    ensures Plain("SUDO docker ps")
  {
  }

  /** A `docker` call behind a word, as the mocked prefix `SUDO ` puts it, is accepted. */
  lemma PrefixedCallAccepted()
    ensures !Rejects("SUDO docker ps")
  {
    MockedLineIsPlain();
    PlainNotDocker("SUDO docker ps");
  }

  /**
    The pattern's `.*` stays on the first line: after a plain first line that starts
    with neither whitespace nor `docker`, the later lines are not looked at, so `ls`
    or `df -h` followed by `; docker ps` on the next line is accepted. (Leading
    whitespace would let `\s*` run across the line break; see `IndentedCallRejected`.)
  */
  lemma LaterLinesIgnored(p: string, q: string)
    requires Plain(p) && |p| > 0 && !IsSpace(p[0]) && !StartsWithDocker(p)
    ensures !Rejects(p + "\n" + q)
  {
    var s := p + "\n" + q;
    assert s == p + ("\n" + q);
    ScanPlainPrefix(p, "\n" + q);
    assert s[0] == p[0];
    assert !StartsWithDocker(s) by {
      if |p| < |Docker| {
        assert s[|p|] == '\n';
      } else {
        assert s[..|Docker|] == p[..|Docker|];
      }
    }
    DockerNextAtStart(s);
  }

}
