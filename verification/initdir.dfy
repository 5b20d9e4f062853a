/**
  The `init` command (brewblox_ctl/commands/install.py:206-231): create a Brewblox
  directory and write its `.env` settings, refusing to touch a non-empty directory
  that Brewblox does not manage.

  The wipe removes `<dir>` entries with a shell glob `*`, which does not match dot files, so
  an existing `.env` survives it and the new settings are upserted into it.
*/
module InitDir {
  import opened Host
  import opened DotEnv

  /** The `.env` contents `init` starts from: the existing file of a managed directory, else none. */
  function PriorEnv(dirs: Dirs, dir: string): Env {
    if dir in dirs && dirs[dir].Managed? then dirs[dir].env else map[]
  }

  /** The directory exists and is not empty: `path_exists(dir) and not is_empty_dir(dir)`. */
  predicate Occupied(dirs: Dirs, dir: string) {
    dir in dirs && !dirs[dir].EmptyDir?
  }

  /** The table once `mkdir -p dir` succeeded: `dir` exists, empty if it is new; nothing else changes. */
  function AfterMakeDir(dirs: Dirs, dir: string): (r: Dirs)
    ensures r.Keys == dirs.Keys + {dir}
    ensures forall d :: d in dirs ==> r[d] == dirs[d]
    ensures dir !in dirs ==> r[dir] == EmptyDir
  {
    if dir in dirs then dirs else dirs[dir := EmptyDir]
  }

  /** The events of the three `setenv` calls. */
  function SettingEvents(release: string, skipConfirm: bool): seq<Event> {
    [ EnvSet(ReleaseKey, release),
      EnvSet(CfgVersionKey, InitialCfgVersion),
      EnvSet(SkipConfirmKey, PyBool(skipConfirm)) ]
  }

  /**
    The events of the directory creation (install.py:222-231): `mkdir -p`, `touch`
    of the `.env`, then the three settings; a failing command is the last event.
  */
  function CreateSteps(dir: string, release: string, skipConfirm: bool, fails: HostCommand -> bool): (t: seq<Event>)
    ensures forall i :: 0 <= i < |t| ==>
              t[i].Told? || t[i].EnvSet? || t[i] == Ran(MakeDir(dir)) || t[i] == Ran(TouchEnv(dir))
    ensures Ran(TouchEnv(dir)) in t <==> !fails(MakeDir(dir))
    ensures EnvSet(ReleaseKey, release) in t <==> !fails(MakeDir(dir)) && !fails(TouchEnv(dir))
    ensures |t| >= 2 && t[0] == Told(CreatingDir) && t[1] == Ran(MakeDir(dir))
    // A failing command writes no setting at all and is the last event.
    ensures fails(MakeDir(dir)) || fails(TouchEnv(dir)) ==> forall i :: 0 <= i < |t| ==> !t[i].EnvSet?
    ensures fails(MakeDir(dir)) ==> t[|t| - 1] == Ran(MakeDir(dir))
    ensures !fails(MakeDir(dir)) && fails(TouchEnv(dir)) ==> t[|t| - 1] == Ran(TouchEnv(dir))
  {
    var settings := SettingEvents(release, skipConfirm);
    assert settings[0] == EnvSet(ReleaseKey, release);
    [Told(CreatingDir), Ran(MakeDir(dir))]
    + (if fails(MakeDir(dir)) then []
       else [Told(SettingEnv), Ran(TouchEnv(dir))] + (if fails(TouchEnv(dir)) then [] else settings))
  }

  /** The directory creation and `.env` writing of `init` (install.py:222-231), after `before`. */
  function Create(dir: string, release: string, skipConfirm: bool, before: seq<Event>,
                  dirs: Dirs, fails: HostCommand -> bool): (r: Run)
    ensures r.trace == before + CreateSteps(dir, release, skipConfirm, fails)
    ensures r.outcome.Finished? || r.outcome.Raised?
    ensures r.outcome.Finished? <==> !fails(MakeDir(dir)) && !fails(TouchEnv(dir))
    ensures r.outcome.Finished? ==> r.dirs == dirs[dir := Managed(InitSettings(PriorEnv(dirs, dir), release, skipConfirm))]
    // A failing `mkdir` changes nothing; a failing `touch` leaves the directory `mkdir` made.
    ensures r.outcome == Raised(CommandFailed(MakeDir(dir))) <==> fails(MakeDir(dir))
    ensures r.outcome == Raised(CommandFailed(MakeDir(dir))) ==> r.dirs == dirs
    ensures r.outcome == Raised(CommandFailed(TouchEnv(dir))) ==> r.dirs == AfterMakeDir(dirs, dir)
  {
    var t := before + CreateSteps(dir, release, skipConfirm, fails);
    if fails(MakeDir(dir)) then Run(t, Raised(CommandFailed(MakeDir(dir))), dirs)
    else if fails(TouchEnv(dir)) then Run(t, Raised(CommandFailed(TouchEnv(dir))), AfterMakeDir(dirs, dir))
    else Run(t, Finished, dirs[dir := Managed(InitSettings(PriorEnv(dirs, dir), release, skipConfirm))])
  }

  /** `init` on a non-empty Brewblox directory (install.py:216-220, then 222-231). */
  function InitManaged(dir: string, release: string, force: bool, skipConfirm: bool,
                       dirs: Dirs, answer: Prompt -> bool, fails: HostCommand -> bool): (r: Run)
    requires dir in dirs && dirs[dir].Managed?
    ensures r.outcome == Returned <==> !force && !answer(EraseManagedPrompt)
    ensures r.outcome == Returned ==> r.trace == [Asked(EraseManagedPrompt)]
    ensures !r.outcome.Returned? ==> |r.trace| > 0 && Ran(WipeContents(dir)) in r.trace
    ensures Asked(EraseManagedPrompt) in r.trace <==> !force
    ensures !r.outcome.Raised? || r.outcome.error.CommandFailed?
    ensures !r.outcome.Finished? ==> r.dirs == dirs
    ensures r.outcome.Finished? ==> r.dirs == dirs[dir := Managed(InitSettings(PriorEnv(dirs, dir), release, skipConfirm))]
  {
    var asked := if force then [] else [Asked(EraseManagedPrompt)];
    if force || answer(EraseManagedPrompt) then
      var wipe := Sh([WipeContents(dir)], true, fails);
      var t := asked + RanEvents(wipe.ran);
      assert t[|asked|] == Ran(WipeContents(dir));
      if wipe.failed then Run(t, Raised(CommandFailed(WipeContents(dir))), dirs)
      else
        var r := Create(dir, release, skipConfirm, t, dirs, fails);
        assert r.trace[|asked|] == t[|asked|];
        assert !force ==> r.trace[0] == t[0];
        assert force ==> forall i :: 0 <= i < |r.trace| ==> r.trace[i] != Asked(EraseManagedPrompt);
        r
    else Run(asked, Returned, dirs)
  }

  /**
    `init(dir, release, force, skip_confirm)`. `modeConfirmed` is the verdict of
    `confirm_mode`, `answer` answers `confirm`, `fails` says which commands exit non-zero.
  */
  function Init(dir: string, release: string, force: bool, skipConfirm: bool, modeConfirmed: bool,
                dirs: Dirs, answer: Prompt -> bool, fails: HostCommand -> bool): (r: Run)
    // A foreign directory raises, with nothing done and nothing asked.
    ensures r.outcome == Aborted <==> !modeConfirmed
    ensures r.outcome == Raised(NotBrewbloxDir(dir)) <==> modeConfirmed && dir in dirs && dirs[dir].Foreign?
    ensures r.outcome == Raised(NotBrewbloxDir(dir)) ==> r.trace == []
    // A managed directory is wiped only with `force` or a confirmation; declining is a clean return.
    ensures r.outcome == Returned <==>
              modeConfirmed && dir in dirs && dirs[dir].Managed? && !force && !answer(EraseManagedPrompt)
    ensures Ran(WipeContents(dir)) in r.trace <==>
              modeConfirmed && dir in dirs && dirs[dir].Managed? && (force || answer(EraseManagedPrompt))
    ensures Asked(EraseManagedPrompt) in r.trace <==>
              modeConfirmed && dir in dirs && dirs[dir].Managed? && !force
    // A finished run changes the table only at `dir`. Of the others, only a failing
    // `touch` does: it leaves behind the directory `mkdir` made.
    ensures !r.outcome.Finished? && r.outcome != Raised(CommandFailed(TouchEnv(dir))) ==> r.dirs == dirs
    ensures r.outcome == Raised(CommandFailed(TouchEnv(dir))) ==> r.dirs == AfterMakeDir(dirs, dir)
    ensures r.outcome.Finished? ==> r.dirs == dirs[dir := Managed(InitSettings(PriorEnv(dirs, dir), release, skipConfirm))]
  {
    if !modeConfirmed then Run([], Aborted, dirs)
    else if !Occupied(dirs, dir) then
      var r := Create(dir, release, skipConfirm, [], dirs, fails);
      assert forall i :: 0 <= i < |r.trace| ==> r.trace[i] != Ran(WipeContents(dir)) && r.trace[i] != Asked(EraseManagedPrompt);
      r
    else if dirs[dir].Foreign? then Run([], Raised(NotBrewbloxDir(dir)), dirs)
    else InitManaged(dir, release, force, skipConfirm, dirs, answer, fails)
  }
}

/** Properties of `init` that relate several runs. */
module InitDirFacts {
  import opened Host
  import opened DotEnv
  import opened InitDir

  /**
    A second `init` of the same directory, with the same release and skip-confirm
    flag, leaves the table exactly as the first one left it: whether it is forced,
    declined, or fails part-way.
  */
  lemma InitIdempotent(dir: string, release: string, skipConfirm: bool, dirs: Dirs,
                       force1: bool, answer1: Prompt -> bool, fails1: HostCommand -> bool,
                       force2: bool, mode2: bool, answer2: Prompt -> bool, fails2: HostCommand -> bool)
    requires Init(dir, release, force1, skipConfirm, true, dirs, answer1, fails1).outcome == Finished
    ensures var r1 := Init(dir, release, force1, skipConfirm, true, dirs, answer1, fails1);
            Init(dir, release, force2, skipConfirm, mode2, r1.dirs, answer2, fails2).dirs == r1.dirs
  {
    var r1 := Init(dir, release, force1, skipConfirm, true, dirs, answer1, fails1);
    var e := InitSettings(PriorEnv(dirs, dir), release, skipConfirm);
    InitSettingsIdempotent(PriorEnv(dirs, dir), release, skipConfirm);
    InitOnSettled(dir, release, skipConfirm, e, r1.dirs, force2, mode2, answer2, fails2);
  }

  /** `init` of a directory whose settings it would not change leaves the table as it is. */
  lemma InitOnSettled(dir: string, release: string, skipConfirm: bool, e: Env, dirs: Dirs,
                      force: bool, mode: bool, answer: Prompt -> bool, fails: HostCommand -> bool)
    requires dir in dirs && dirs[dir] == Managed(e)
    requires InitSettings(e, release, skipConfirm) == e
    ensures Init(dir, release, force, skipConfirm, mode, dirs, answer, fails).dirs == dirs
  {
    assert PriorEnv(dirs, dir) == e;
    assert dirs[dir := Managed(e)] == dirs;
  }

  /** On an absent or empty directory a finished `init` leaves exactly the three settings. */
  lemma InitFreshDirectory(dir: string, release: string, force: bool, skipConfirm: bool,
                           dirs: Dirs, answer: Prompt -> bool, fails: HostCommand -> bool)
    requires dir !in dirs || dirs[dir].EmptyDir?
    requires !fails(MakeDir(dir)) && !fails(TouchEnv(dir))
    ensures var r := Init(dir, release, force, skipConfirm, true, dirs, answer, fails);
            && r.outcome == Finished
            && r.dirs[dir] == Managed(map[ReleaseKey := release, CfgVersionKey := InitialCfgVersion,
                                          SkipConfirmKey := PyBool(skipConfirm)])
  {
    InitSettingsFresh(release, skipConfirm);
  }

  /**
    A failing `touch` after `mkdir -p` made a new directory raises, and leaves that
    directory behind, empty.
  */
  lemma TouchFailureLeavesDirectory(dir: string, release: string, force: bool, skipConfirm: bool,
                                    dirs: Dirs, answer: Prompt -> bool, fails: HostCommand -> bool)
    requires dir !in dirs
    requires !fails(MakeDir(dir)) && fails(TouchEnv(dir))
    ensures var r := Init(dir, release, force, skipConfirm, true, dirs, answer, fails);
            && r.outcome == Raised(CommandFailed(TouchEnv(dir)))
            && r.dirs == dirs[dir := EmptyDir]
  {
  }

  lemma SettingsAllMutate(release: string, skipConfirm: bool)
    ensures Mutations(SettingEvents(release, skipConfirm)) == SettingEvents(release, skipConfirm)
  {
    var s := SettingEvents(release, skipConfirm);
    assert s[2..] == [s[2]] + [];
    MutationsCons(s[2], []);
    assert s[1..] == [s[1]] + s[2..];
    MutationsCons(s[1], s[2..]);
    assert s == [s[0]] + s[1..];
    MutationsCons(s[0], s[1..]);
  }

  /** The trace of a successful directory creation. */
  lemma CreateTrace(dir: string, release: string, skipConfirm: bool, before: seq<Event>,
                    dirs: Dirs, fails: HostCommand -> bool)
    requires !fails(MakeDir(dir)) && !fails(TouchEnv(dir))
    ensures Create(dir, release, skipConfirm, before, dirs, fails).trace
         == before + [Told(CreatingDir), Ran(MakeDir(dir)), Told(SettingEnv), Ran(TouchEnv(dir))]
            + SettingEvents(release, skipConfirm)
  {
  }

  lemma CreationMutations(dir: string)
    ensures Mutations([Told(CreatingDir), Ran(MakeDir(dir)), Told(SettingEnv), Ran(TouchEnv(dir))])
         == [Ran(MakeDir(dir)), Ran(TouchEnv(dir))]
  {
    var head := [Told(CreatingDir), Ran(MakeDir(dir)), Told(SettingEnv), Ran(TouchEnv(dir))];
    assert head[3..] == [head[3]] + [];
    MutationsCons(head[3], []);
    assert head[2..] == [head[2]] + head[3..];
    MutationsCons(head[2], head[3..]);
    assert head[1..] == [head[1]] + head[2..];
    MutationsCons(head[1], head[2..]);
    assert head == [head[0]] + head[1..];
    MutationsCons(head[0], head[1..]);
  }

  /** What `init` does to the host when it creates the directory: mkdir, touch, then the three settings in order. */
  lemma CreateActions(dir: string, release: string, skipConfirm: bool, before: seq<Event>,
                      dirs: Dirs, fails: HostCommand -> bool)
    requires !fails(MakeDir(dir)) && !fails(TouchEnv(dir))
    ensures Mutations(Create(dir, release, skipConfirm, before, dirs, fails).trace)
         == Mutations(before) + [Ran(MakeDir(dir)), Ran(TouchEnv(dir))] + SettingEvents(release, skipConfirm)
  {
    var settings := SettingEvents(release, skipConfirm);
    var head := [Told(CreatingDir), Ran(MakeDir(dir)), Told(SettingEnv), Ran(TouchEnv(dir))];
    CreateTrace(dir, release, skipConfirm, before, dirs, fails);
    MutationsAppend(before, head + settings);
    MutationsAppend(head, settings);
    SettingsAllMutate(release, skipConfirm);
    CreationMutations(dir);
    Assoc(before, head, settings);
    Assoc(Mutations(before), [Ran(MakeDir(dir)), Ran(TouchEnv(dir))], settings);
  }

  lemma Assoc<T>(a: seq<T>, b: seq<T>, c: seq<T>)
    ensures a + b + c == a + (b + c)
  {
  }

  /** The host changes of an `init` that finished: the wipe of a managed directory, then the creation. */
  function InitActions(dir: string, release: string, skipConfirm: bool, dirs: Dirs): seq<Event> {
    (if dir in dirs && dirs[dir].Managed? then [Ran(WipeContents(dir))] else [])
    + [Ran(MakeDir(dir)), Ran(TouchEnv(dir))] + SettingEvents(release, skipConfirm)
  }

  lemma InitManagedActions(dir: string, release: string, force: bool, skipConfirm: bool,
                            dirs: Dirs, answer: Prompt -> bool, fails: HostCommand -> bool)
    requires dir in dirs && dirs[dir].Managed?
    requires InitManaged(dir, release, force, skipConfirm, dirs, answer, fails).outcome == Finished
    ensures Mutations(InitManaged(dir, release, force, skipConfirm, dirs, answer, fails).trace)
         == [Ran(WipeContents(dir))] + [Ran(MakeDir(dir)), Ran(TouchEnv(dir))] + SettingEvents(release, skipConfirm)
  {
    var asked := if force then [] else [Asked(EraseManagedPrompt)];
    var t := asked + RanEvents([WipeContents(dir)]);
    var r := Create(dir, release, skipConfirm, t, dirs, fails);
    assert InitManaged(dir, release, force, skipConfirm, dirs, answer, fails) == r;
    CreateActions(dir, release, skipConfirm, t, dirs, fails);
    WipeMutations(asked, dir);
  }

  /** Of the erase question and the wipe, only the wipe changes the host. */
  lemma WipeMutations(asked: seq<Event>, dir: string)
    requires asked == [] || asked == [Asked(EraseManagedPrompt)]
    ensures Mutations(asked + RanEvents([WipeContents(dir)])) == [Ran(WipeContents(dir))]
  {
    MutationsAppend(asked, RanEvents([WipeContents(dir)]));
    MutationsRan([WipeContents(dir)]);
    assert RanEvents([WipeContents(dir)]) == [Ran(WipeContents(dir))];
    assert Mutations(asked) == [];
  }

  /** A finished `init` changes the host by exactly `InitActions`, in that order. */
  lemma InitActionOrder(dir: string, release: string, force: bool, skipConfirm: bool, modeConfirmed: bool,
                        dirs: Dirs, answer: Prompt -> bool, fails: HostCommand -> bool)
    requires Init(dir, release, force, skipConfirm, modeConfirmed, dirs, answer, fails).outcome == Finished
    ensures Mutations(Init(dir, release, force, skipConfirm, modeConfirmed, dirs, answer, fails).trace)
         == InitActions(dir, release, skipConfirm, dirs)
  {
    if Occupied(dirs, dir) {
      InitManagedActions(dir, release, force, skipConfirm, dirs, answer, fails);
    } else {
      CreateActions(dir, release, skipConfirm, [], dirs, fails);
      assert Mutations([]) == [];
    }
  }
}
