/**
  The `.env` file of a Brewblox directory, as `utils.setenv` maintains it:
  a key-value map where setting a key replaces its value or adds it.
  The keys come from brewblox_ctl/const.py, which is not part of this model;
  only their distinctness matters here.
*/
module DotEnv {

  type Env = map<string, string>

  const ReleaseKey: string := "BREWBLOX_RELEASE"
  const CfgVersionKey: string := "BREWBLOX_CFG_VERSION"
  const SkipConfirmKey: string := "BREWBLOX_SKIP_CONFIRM"

  /** The configuration version `init` writes into a fresh directory. */
  const InitialCfgVersion: string := "0.0.0"

  /** Python's `str(b)` for a bool. */
  function PyBool(b: bool): string {
    if b then "True" else "False"
  }

  /** `utils.setenv(key, value, path)`: upsert one key. */
  function SetEnv(env: Env, key: string, value: string): (r: Env)
    ensures r.Keys == env.Keys + {key}
    ensures key in r && r[key] == value
    ensures forall k :: k in env && k != key ==> r[k] == env[k]
  {
    env[key := value]
  }

  /**
    The three settings `init` writes (install.py:229-231), in that order:
    the release track, the configuration version and the skip-confirm flag.
  */
  function InitSettings(env: Env, release: string, skipConfirm: bool): (r: Env)
    // The three keys hold their new values and every other key is untouched.
    ensures r.Keys == env.Keys + {ReleaseKey, CfgVersionKey, SkipConfirmKey}
    ensures r[ReleaseKey] == release && r[CfgVersionKey] == InitialCfgVersion
    ensures r[SkipConfirmKey] == PyBool(skipConfirm)
    ensures forall k :: k in env && k !in {ReleaseKey, CfgVersionKey, SkipConfirmKey} ==> r[k] == env[k]
  {
    var e1 := SetEnv(env, ReleaseKey, release);
    var e2 := SetEnv(e1, CfgVersionKey, InitialCfgVersion);
    SetEnv(e2, SkipConfirmKey, PyBool(skipConfirm))
  }

  /** Writing the settings a second time changes nothing. */
  lemma InitSettingsIdempotent(env: Env, release: string, skipConfirm: bool)
    ensures InitSettings(InitSettings(env, release, skipConfirm), release, skipConfirm)
         == InitSettings(env, release, skipConfirm)
  {
    var r := InitSettings(env, release, skipConfirm);
    assert InitSettings(r, release, skipConfirm).Keys == r.Keys;
  }

  /** On a directory with no prior `.env`, the result is exactly the three settings. */
  lemma InitSettingsFresh(release: string, skipConfirm: bool)
    ensures InitSettings(map[], release, skipConfirm)
         == map[ReleaseKey := release, CfgVersionKey := InitialCfgVersion, SkipConfirmKey := PyBool(skipConfirm)]
  {
  }
}
