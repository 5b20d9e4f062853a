# brewblox-ctl installation commands, modelled in Dafny

This project models the installation core of `brewblox-ctl`, the command-line tool
that sets up a Brewblox system on a Raspberry Pi or another Debian host. It covers
four parts.

- **`install` and `init`** (`brewblox_ctl/commands/install.py`).
  - `install` first asks its questions and consults the host probes, resolving each
    of the three tri-state flags (apt packages, docker, the docker group). It then
    carries out a fixed sequence: apt, docker, IPv6, the docker group, a snapshot or
    `init` of the directory, and the reboot.
  - `init` creates a Brewblox directory and upserts three settings into its `.env`.
    It refuses a non-empty directory that Brewblox does not manage.
- **The firmware commands** (same file): `flash`, `particle` and the disabled `wifi`.
- **The legacy command classes** (`brewblox_ctl/commands.py`): their menu strings, the
  shell-line lists they build, `run_all`, and `InstallCommand`, which builds an
  install script from questions and probes.
- **The test helper `check_sudo`** (`brewblox_ctl/testing.py`). It rejects a shell line
  that calls `docker` without the `optsudo` prefix. The project proves that the
  flasher lines of `flash` and `particle` and the line lists of the legacy commands
  other than `InstallCommand` pass it exactly when `optsudo` is `sudo `, under the
  assumptions on tags and arguments listed under "Left out". The `InstallCommand`
  script passes it whatever `optsudo` is, under the listed assumptions on the
  interpreter path and the target, because it never calls docker directly.
  The `sh` commands of `install` and `init` are modelled as commands, not as text,
  so `check_sudo` is not applied to them.

## How the model is built

Each run is a pure function from its options and an environment to a
`Run(trace, outcome, dirs)`.

- **The environment:**
  - an answer oracle for `confirm`;
  - the host probe results;
  - a directory table for `path_exists`, `is_empty_dir` and `is_brewblox_dir`, in which
    a `.env` file is a map;
  - a failure oracle for the commands that `sh` runs.
- **The trace** records the questions asked, the notices logged and the host changes
  made. `Mutations` extracts the host changes.
- **The outcome** is one of:
  - `Finished`;
  - `Returned` (an early `return`);
  - `Aborted` (`confirm_mode` or `confirm_usb` declined);
  - `Raised` (`FileExistsError`, or a failing checked `sh`).

Modules:

| module | file | contents |
|---|---|---|
| `Host` | `host.dfy` | shared vocabulary, traces, `sh` |
| `DotEnv` | `dotenv.dfy` | the `.env` map and the three settings |
| `InitDir`, `InitDirFacts` | `initdir.dfy` | `init` and its properties |
| `Resolve` | `resolve.dfy` | the question-and-probe half of `install` |
| `Install`, `InstallFacts` | `install.dfy`, `install_facts.dfy` | the action half, the whole command, and its properties |
| `ShellText`, `Flasher`, `FlasherFacts` | `shelltext.dfy`, `flasher.dfy` | command lines as text; the firmware commands |
| `Legacy` | `legacy.dfy` | `commands.py` |
| `SudoCheck` | `sudocheck.dfy` | `check_sudo`, with a scanner proved equal to the meaning of its regular expression |
| `SudoLines` | `sudolines.dfy` | `check_sudo` applied to every command list |

## Model

| member | source | states |
|---|---|---|
| Resolve.Decide | brewblox_ctl/commands/install.py:89-121 | A capability its probe already settles is off whatever the flag says, and only the probe's notices are logged. Otherwise a set flag wins, then `use_defaults` (yes, without asking), and only then the operator's answer, after exactly one question. |
| Resolve.ResolveCapabilities | brewblox_ctl/commands/install.py:89-121 | The three decisions in order. Apt is wanted only when apt exists, docker only when it is missing, and the group only when the user is not in it, each by the flag/defaults/answer precedence. Resolving changes nothing on the host. |
| Resolve.CapabilityQuestions | brewblox_ctl/commands/install.py:95-121 | Each capability question is asked if and only if its probe leaves it open, its flag is unset and `use_defaults` is off. |
| Resolve.UseDefaultsDecision | brewblox_ctl/commands/install.py:86-87 | A set `--use-defaults` flag is taken as is. Otherwise the first question decides. |
| Resolve.ResolveDir | brewblox_ctl/commands/install.py:123-137 | `install` returns exactly when the operator declines the default directory (asked only without `--dir` and without defaults) or declines erasing an existing directory. A plan keeps the capability decisions and the chosen directory. `prompt_reboot` is the answer unless `--no-reboot`. |
| Resolve.DirQuestions | brewblox_ctl/commands/install.py:123-137 | The default-directory question is asked only without `--dir` and `use_defaults`. The erase question is asked exactly for an existing chosen directory, even under `use_defaults`. The reboot question is asked only when the run goes on without `--no-reboot`. |
| Resolve.ResolveInstall | brewblox_ctl/commands/install.py:79-137 | A declined `confirm_mode` aborts with an empty trace. A plan takes `use_defaults` from the flag or the first answer and uses the chosen directory. An existing directory in the plan was confirmed. |
| Resolve.ResolveChangesNothing | brewblox_ctl/commands/install.py:79-137 | Nothing before the first `sh` call changes the host. |
| Install.AptStep | brewblox_ctl/commands/install.py:139-148 | A disabled step only logs that apt was skipped and finishes. An enabled one announces the install and never logs the skip. The table is unchanged. |
| Install.DockerStep | brewblox_ctl/commands/install.py:150-155 | The same for the docker install script. |
| Install.UserStep | brewblox_ctl/commands/install.py:160-165 | The same for adding the user to the docker group. |
| Install.Ipv6Step | brewblox_ctl/commands/install.py:157-158 | IPv6 is enabled as the step's only host change, and the step always finishes. |
| Install.DirStep | brewblox_ctl/commands/install.py:167-177 | A non-empty snapshot name loads the snapshot. Otherwise `init` runs with `force=True`, so its erase question is never asked. It raises exactly on a foreign directory, with nothing logged. A finished `init` leaves the three settings in the directory's `.env`. |
| Install.Execute | brewblox_ctl/commands/install.py:139-191 | The plan ends finished or raised. The foreign-directory error comes only after IPv6 was enabled and leaves the directory table unchanged. |
| Install.InstallRun | brewblox_ctl/commands/install.py:79-191 | Aborted exactly without `confirm_mode`, with an empty trace. An early return has changed nothing. A foreign directory raises after IPv6 was enabled, with the table unchanged. |
| InstallFacts.CapabilityPrecedence | brewblox_ctl/commands/install.py:89-121 | Probe beats flag, flag beats `use_defaults`, and `use_defaults` beats the answer, for all three capabilities. |
| InstallFacts.QuestionsAsked | brewblox_ctl/commands/install.py:84-137 | The exact set of questions `install` asks, one condition per question, in both directions. |
| InstallFacts.DeclineIsClean | brewblox_ctl/commands/install.py:123-133 | `install` returns if and only if the default directory or the erase is declined. It then made no host change and left the table as it was. |
| InstallFacts.ExecuteActions | brewblox_ctl/commands/install.py:139-191 | A plan carried out to the end changes the host by exactly `PlannedActions`, in order: apt commands, docker, IPv6, usermod, the snapshot load or `init`'s changes, reboot. |
| InstallFacts.InstallActionOrder | brewblox_ctl/commands/install.py:79-191 | A finished `install` went through a plan, and its host changes are exactly that plan's `PlannedActions`. |
| InstallFacts.AptFailureIsFatal | brewblox_ctl/commands/install.py:139-148 | A failing apt command raises that command's failure before IPv6, leaving the table unchanged. |
| InstallFacts.DockerFailureTolerated | brewblox_ctl/commands/install.py:150-158 | The docker script runs unchecked: whether or not it fails, IPv6 is enabled afterwards. |
| InstallFacts.UserFailureIsFatal | brewblox_ctl/commands/install.py:157-165 | After apt went through, a failing `usermod` raises that failure, after exactly the apt, docker and IPv6 changes and itself. The directory step never runs and the table is unchanged. |
| InstallFacts.AptDecisionFirst | brewblox_ctl/commands/install.py:139-148 | The carried-out plan opens by logging the skipped apt step exactly when the plan skips the apt packages, and by announcing the install exactly when it installs them. |
| InstallFacts.ForeignDirGuard | brewblox_ctl/commands/install.py:167-177 | Once the checked steps pass, the plan raises `FileExistsError` exactly for a foreign directory without a snapshot. |
| InstallFacts.ForeignDirAfterHostActions | brewblox_ctl/commands/install.py:139-177 | When the guard fires, the host has already received exactly the apt, docker, IPv6 and usermod changes, and the table is untouched. |
| InstallFacts.InstallWritesSettings | brewblox_ctl/commands/install.py:173-177 | A finished `install` without a snapshot leaves the chosen directory managed. Its `.env` holds the release, version `0.0.0` and skip-confirm equal to `use_defaults`. |
| Install.RebootStep | brewblox_ctl/commands/install.py:179-191 | With `--no-reboot` only the skip notice, and the step finishes. Otherwise the wait (ENTER if prompted, else ten seconds) and then `sudo reboot`, which finishes exactly when the reboot does not fail. The table is unchanged. |
| InstallFacts.RebootIsLast | brewblox_ctl/commands/install.py:179-191 | A finished `install` ends with the closing notice, then either the skipped-reboot notice, or the wait (ENTER if prompted, else ten seconds) followed by `sudo reboot` as the very last step. |
| InstallFacts.NoRebootMeansNoReboot | brewblox_ctl/commands/install.py:135-191 | With `--no-reboot`, `sudo reboot` never runs. |
| InstallFacts.OnlyTheLastStepReboots | brewblox_ctl/commands/install.py:139-191 | `sudo reboot` is among the planned changes if and only if `--no-reboot` is absent. |
| InstallFacts.DefaultsScenario | brewblox_ctl/commands/install.py:79-191 | A worked run of `install --use-defaults` on a bare host: the exact questions, the exact host changes in order, and the resulting `.env`. |
| InstallFacts.NothingFailsFinishes | brewblox_ctl/commands/install.py:139-191 | With no failing command and no foreign directory, the plan finishes. |
| InstallFacts.ForeignDirScenario | brewblox_ctl/commands/install.py:123-177 | `install --dir <foreign> --no-reboot` never changes the table. Declining the erase returns; accepting it raises. |
| InitDir.CreateSteps | brewblox_ctl/commands/install.py:222-231 | The creation notice and then `mkdir` come first. The `.env` is touched exactly when `mkdir` succeeded. The settings are written exactly when both commands succeeded; after a failure no setting is written and the failing command is the last event. |
| InitDir.AfterMakeDir | brewblox_ctl/commands/install.py:223 | After `mkdir -p`, the directory exists, empty if it is new, and every other entry is unchanged. |
| InitDir.Create | brewblox_ctl/commands/install.py:222-231 | The creation finishes if and only if neither `mkdir` nor `touch` fails, and then upserts the settings into the prior `.env`. A failing `mkdir` leaves the table unchanged. A failing `touch` leaves the directory `mkdir` made. |
| InitDir.InitManaged | brewblox_ctl/commands/install.py:216-231 | A managed directory is wiped exactly with `force` or consent. Declining returns after the single question. The question is asked exactly without `force`. |
| InitDir.Init | brewblox_ctl/commands/install.py:206-231 | Aborted exactly without `confirm_mode`. It raises exactly on a foreign non-empty directory, before any command. It returns, wipes and asks each under its exact condition. A finished run changes the table only at `dir`. A failing `touch` leaves the directory `mkdir` made. Every other run leaves the table unchanged. |
| InitDirFacts.InitIdempotent | brewblox_ctl/commands/install.py:206-231 | A second `init` with the same release and flag, forced or not, declined or failing, leaves the table as the first finished `init` left it. |
| InitDirFacts.TouchFailureLeavesDirectory | brewblox_ctl/commands/install.py:222-228 | On an absent directory, a successful `mkdir` followed by a failing `touch` raises and leaves the new directory behind, empty. |
| InitDirFacts.InitFreshDirectory | brewblox_ctl/commands/install.py:222-231 | On an absent or empty directory, a successful `init` leaves exactly the three settings. |
| InitDirFacts.CreateActions | brewblox_ctl/commands/install.py:222-231 | The creation changes the host by `mkdir`, `touch`, then the three settings, in order. |
| InitDirFacts.InitActionOrder | brewblox_ctl/commands/install.py:206-231 | A finished `init` changes the host by the wipe (managed directory only) followed by the creation. |
| DotEnv.SetEnv | brewblox_ctl/commands/install.py:229-231 | Setting a key adds or replaces it and keeps every other key. |
| DotEnv.InitSettings | brewblox_ctl/commands/install.py:229-231 | The release, version `0.0.0` and `str(skip_confirm)` are set, and every other key is untouched. |
| DotEnv.InitSettingsIdempotent | brewblox_ctl/commands/install.py:229-231 | Writing the settings twice is the same as writing them once. |
| Host.Sh | brewblox_ctl/commands/install.py:142-163 | A checked `sh` stops at and reports its first failing command. An unchecked one runs everything and never fails. |
| Host.Mutations | brewblox_ctl/commands/install.py:139-191 | The host changes of a trace: all of them, and nothing else. |
| Flasher.PrepareFlasher | brewblox_ctl/commands/install.py:234-244 | The preparation finishes exactly when neither the pull (if asked) nor the compose down (if a compose file exists) fails. A failing pull raises first. |
| Flasher.FlasherCommand | brewblox_ctl/commands/install.py:247-275 | Without both confirmations nothing runs. Otherwise it finishes exactly when pull, stop and flasher run all succeed. |
| Flasher.Wifi | brewblox_ctl/commands/install.py:278-300 | `wifi` only logs notices and changes nothing. |
| FlasherFacts.FlasherOrder | brewblox_ctl/commands/install.py:234-275 | A finished `flash` or `particle` pulls (unless `--no-pull`), then stops the services (if a compose file exists), then runs the flasher, and does nothing else. |
| FlasherFacts.FlashOrder | brewblox_ctl/commands/install.py:254-275 | A finished `flash` says it is flashing. Its host changes are the pull (unless `--no-pull`), the stop (if a compose file exists) and the flasher run with the argument `flash`, in that order. |
| FlasherFacts.ParticleOrder | brewblox_ctl/commands/install.py:303-324 | A finished `particle` gives the exit hint. Its host changes are the pull, the stop and the flasher run with the `--command` text, in that order. |
| FlasherFacts.PullFailureStopsEverything | brewblox_ctl/commands/install.py:234-244 | A failing pull raises with the pull as the only host change. |
| ShellText.OptSudo | brewblox_ctl/commands.py:18 | The prefix is empty exactly for a docker-group user, and `sudo ` otherwise. |
| ShellText.WordsAppend | brewblox_ctl/commands.py:42-51 | Joining two word lists puts one space between their texts. |
| Legacy.LJust | brewblox_ctl/commands.py:20-21 | `ljust` keeps the text, pads with spaces, and reaches the width unless the text is longer. |
| Legacy.Describe | brewblox_ctl/commands.py:20-21 | The menu line is the keyword, spaces up to column 15 (or none past a longer keyword), one space, then the description. |
| Legacy.MenuLine | brewblox_ctl/commands.py:20-21 | For each of the six commands, the description starts in column 16, after the keyword and spaces. |
| Legacy.KeywordsDistinct | brewblox_ctl/commands.py:216-223 | No two commands of `ALL_COMMANDS` share a keyword. |
| Legacy.FirmwareLines | brewblox_ctl/commands.py:148-213 | `docker-compose down` comes first exactly when a compose file exists. The pull comes next, then one flasher run per step, in order. |
| Legacy.RunAll | brewblox_ctl/commands.py:33-40 | The list is announced. The lines run in order and every one returns 0, or the first failing line is the last to run. The lines run are those of a checked `sh`. |
| Legacy.RStripSlash | brewblox_ctl/commands.py:119-122 | The result is a prefix without a trailing `/`, and only slashes were removed. |
| Legacy.MakeOffer | brewblox_ctl/commands.py:96-117 | A dependency is asked about exactly when its probe leaves it open, and chosen exactly when asked and accepted. |
| Legacy.DependencyLines | brewblox_ctl/commands.py:90-117 | The docker and usermod lines appear exactly when chosen. Every line belongs to a dependency, and none is `sudo reboot`. |
| Legacy.DependencyQuestions | brewblox_ctl/commands.py:90-117 | Each dependency question is asked if and only if its probe leaves it open. |
| Legacy.Dependencies | brewblox_ctl/commands.py:87-117 | A reboot is required exactly when docker is installed or the user joins the docker group. |
| Legacy.ScriptLines | brewblox_ctl/commands.py:135-143 | The dependency lines, then the four directory lines, then `sudo reboot` last exactly when consented. |
| Legacy.InstallCommandScript | brewblox_ctl/commands.py:86-145 | The target is the selection without trailing slashes. Declining an existing target returns with no lines. Otherwise the script is the dependency lines, the directory lines and the consented reboot. |
| Legacy.InstallCommandQuestions | brewblox_ctl/commands.py:86-145 | The dependency questions come first. The existing-directory question is asked exactly for an existing target. The reboot question is asked exactly when the script goes ahead and a reboot is required. |
| Legacy.ScriptEndsWithReboot | brewblox_ctl/commands.py:135-145 | A script that goes ahead has the directory lines, and `sudo reboot` appears, as the last line, exactly when required and consented. |
| Legacy.RunInstallScript | brewblox_ctl/commands.py:124-145 | Nothing runs when the operator declined the existing directory. Otherwise the script is announced and run, and succeeds exactly when no line fails. |
| SudoCheck.RejectsIffPattern | brewblox_ctl/testing.py:48 | The scanner rejects a line if and only if the regular expression matches it. |
| SudoCheck.ScanIff | brewblox_ctl/testing.py:48 | The scan finds exactly the positions just after a first-line separator that are followed by `\s*docker`. |
| SudoCheck.CheckSudo | brewblox_ctl/testing.py:37-51 | It raises if and only if some line is rejected, naming the first such line. Otherwise it returns `''` for a line and `None` for a list. |
| SudoCheck.CheckSudoAll | brewblox_ctl/testing.py:46-47 | Over a list, it raises with the first rejected line in depth-first order, else returns `None`. |
| SudoLines.SudoPrefix | brewblox_ctl/commands.py:18 | Behind `sudo `, a line is rejected only by a later separator. Behind the empty prefix, it is judged as it stands. |
| SudoLines.ScanPlainPrefix | brewblox_ctl/testing.py:48 | Text without separators or line breaks hides no anchor. |
| SudoLines.SpacesThenDocker | brewblox_ctl/testing.py:48 | Any run of whitespace, line breaks included, followed by `docker` is where `\s*docker` matches. |
| SudoLines.DirectCallRejected | brewblox_ctl/testing.py:48-49 | Every line starting with `docker`, whatever follows, is rejected. |
| SudoLines.IndentedCallRejected | brewblox_ctl/testing.py:48-49 | Every line starting with any run of whitespace and then `docker` is rejected. |
| SudoLines.SeparatedCallRejected | brewblox_ctl/testing.py:48-49 | `docker` (after optional whitespace) following a separator is rejected whenever no line break comes before the separator. This covers `ls; docker ps` and `ls && docker ps`. |
| SudoLines.BreakAfterSeparatorRejected | brewblox_ctl/testing.py:48 | A first line ending in a separator, with `docker` opening the next line, is rejected: `\s` crosses the line break. |
| SudoLines.PrefixedCallAccepted | brewblox_ctl/testing.py:38-51 | The mocked `SUDO docker ps` is accepted. |
| SudoLines.LaterLinesIgnored | brewblox_ctl/testing.py:48 | After a plain first line that starts with neither whitespace nor `docker`, the later lines are not looked at: whatever they hold, the text is accepted. |
| SudoLines.FlasherLinesChecked | brewblox_ctl/commands/install.py:234-251 | Each flasher line is rejected exactly for a docker-group user. |
| SudoLines.FlasherActionsChecked | brewblox_ctl/commands/install.py:234-251 | Every command a finished `flash` or `particle` runs passes `check_sudo` exactly when `optsudo` is `sudo `. |
| Legacy.LibSteps | brewblox_ctl/commands.py:42-51 | Six steps. Exactly the container removal, the pull and the local `rm` carry a fallback, and every step but the local `rm` is a docker call. |
| Legacy.LibCommands | brewblox_ctl/commands.py:42-51 | Each line is its step's words, behind the `sudo` prefix exactly when the step is a docker call. |
| SudoLines.LibCommandsChecked | brewblox_ctl/commands.py:42-51 | Of the six `lib_commands` lines, all but the local `rm` are rejected exactly for a docker-group user. The local `rm` never is. |
| SudoLines.FirmwareLinesChecked | brewblox_ctl/commands.py:148-213 | Every firmware command line is rejected exactly for a docker-group user. |
| SudoLines.CommandLinesChecked | brewblox_ctl/commands.py:58-213 | Each legacy command but `install` has lines, and every one is rejected exactly for a docker-group user. |
| SudoLines.CommandListsPassCheckSudo | brewblox_ctl/commands.py:58-213 | `check_sudo` on each such list raises on its first line for a docker-group user, and returns `None` otherwise. |
| SudoLines.InstallScriptAccepted | brewblox_ctl/commands.py:86-145 | Every line of the install script passes `check_sudo`. |

## Left out

- **The `utils` collaborators are not part of this model.** Each becomes an input:
  - `confirm`, `confirm_mode`, `confirm_usb` and `select` become answer oracles;
  - `command_exists` and `is_docker_user` become host probes;
  - `path_exists`, `is_empty_dir` and `is_brewblox_dir` become the directory table;
  - `docker_tag` and `ctl_lib_tag` become the `tag` parameter;
  - `optsudo` becomes the `sudo` parameter;
  - `setenv` becomes an `EnvSet` event that always succeeds, because the `.env` editing is outside this code.
- **Process execution:**
  - `sh`, `subprocess.check_call`, the docker containers and the Particle flasher are abstracted to a failure oracle;
  - the shell meaning of `||` and `|` inside a line is not modelled, because a line succeeds or fails as a whole.
- **`snapshot.load`** is modelled as a single event. Its effect on the directory table is not modelled, because the snapshot archive is outside this code.
- **Other effects:**
  - `enable_ipv6` is one event, because its configuration editing is outside this code;
  - `sleep(10)`, `input()` (`prompt_usb`, `announce`, the ENTER before the reboot) and the text of `info` and `print` messages are events or left out.
- **Omitted code:**
  - click option parsing and `ctx.invoke`;
  - `check_config`;
  - the `testing.invoke` and `matching` helpers.
- **`const.py`** is not part of this model. The key names and `PY` are parameters or assumed strings whose only relevant property is that they differ.
- SudoLines.FlasherLinesChecked: assumes the tag and the flasher arguments hold no `;`, `&`, `|` or line break. Text with a separator can carry a docker call of its own.
- SudoLines.FlasherActionsChecked: assumes the same of the tag and the flasher arguments. A `particle --command` text holding a separator or a line break is not covered.
- SudoLines.CommandLinesChecked: assumes the same of the tag.
- SudoLines.InstallScriptAccepted: assumes the same of the interpreter path and the target directory. It also assumes the interpreter path does not start with `d` or with whitespace.
- InstallFacts.DockerFailureTolerated: states only that a failing docker script does not stop `install` before IPv6. The later steps are covered by `InstallFacts.ExecuteActions`.
- Legacy.LibCommands: does not model what the shell does with the `||` fallbacks. A line succeeds or fails as a whole.
- Install.DirStep: `init` calls `confirm_mode` again (install.py:211). The model passes `true` for that second call, because `install` already passed the same check at its start.
- Install.Ipv6Step: `enable_ipv6` never fails in the model, because its configuration editing is outside this code.
- Install.DirStep: `snapshot.load` never fails in the model, for the same reason.
- Flasher.Wifi: models the command as it stands, disabled. The confirmation, preparation and flasher run in its body are commented out.

## Behaviour worth noting

Each point follows from the code as written, and the model follows it.

- `install` asks the reboot question even under `--use-defaults`, because only `--no-reboot` skips it.
- `install` asks about erasing an existing directory even under `--use-defaults`.
- An empty `--snapshot` name is falsy in Python, so `init` runs instead.
- The wipe in `init` removes `<dir>/*`. The glob skips dot files, so an existing `.env` survives, and the new settings are upserted into it rather than written into an empty file.
- The flasher commands differ between the two files:
  - `install.py` pulls the flasher image before stopping the services, while the legacy lists in `commands.py` stop the services first;
  - the legacy flasher run does not mount `/dev`.
- The docker install script is fetched differently:
  - `install.py` runs `curl -sL get.docker.com | sh` unchecked;
  - the legacy `InstallCommand` runs `curl -sSL https://get.docker.com | sh` through `check_call`.
- The pull of the flasher image in `prepare_flasher` (install.py:240) is a checked `sh`: a failing pull raises and stops `flash` and `particle`.
