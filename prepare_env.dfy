/**
 * The decisions `prepare_env` takes before handing control to Django (awx/__init__.py):
 * the default settings module chosen from the mode, the test-database overrides read
 * from the environment, and the condition for installing the lightweight debug cursor.
 * The process environment is a `map<string, string>` parameter.
 */
module PrepareEnv {
  import opened Wrappers

  /** Development when the `awx.devonly` marker module imports, production otherwise. */
  datatype Mode = Development | Production

  function ModeName(mode: Mode): string {
    match mode
    case Development => "development"
    case Production => "production"
  }

  const SETTINGS_MODULE_VAR := "DJANGO_SETTINGS_MODULE"

  /** `os.environ.setdefault('DJANGO_SETTINGS_MODULE', 'awx.settings.<mode>')`. */
  function SetDefaultSettingsModule(environ: map<string, string>, mode: Mode): (r: map<string, string>)
    ensures r.Keys == environ.Keys + {SETTINGS_MODULE_VAR}
    ensures forall k :: k in environ ==> r[k] == environ[k]
    ensures SETTINGS_MODULE_VAR !in environ ==> r[SETTINGS_MODULE_VAR] == "awx.settings." + ModeName(mode)
  {
    if SETTINGS_MODULE_VAR in environ then environ
    else environ[SETTINGS_MODULE_VAR := "awx.settings." + ModeName(mode)]
  }

  /** Once the variable is set, later defaults, whatever their mode, change nothing. */
  lemma SetDefaultSettingsModuleStable(environ: map<string, string>, first: Mode, second: Mode)
    ensures SetDefaultSettingsModule(SetDefaultSettingsModule(environ, first), second)
         == SetDefaultSettingsModule(environ, first)
  {
  }

  /** The environment changes exactly when the variable was absent. */
  lemma SetDefaultSettingsModuleChanges(environ: map<string, string>, mode: Mode)
    ensures SetDefaultSettingsModule(environ, mode) != environ <==> SETTINGS_MODULE_VAR !in environ
  {
    if SETTINGS_MODULE_VAR !in environ {
      assert SETTINGS_MODULE_VAR in SetDefaultSettingsModule(environ, mode);
    }
  }

  const TEST_DATABASE_PREFIX := "AWX_TEST_DATABASE_"

  /** The keys of `DATABASES['default']` that the test environment may override, in loop order. */
  const DATABASE_OPTIONS: seq<string> := ["ENGINE", "NAME", "USER", "PASSWORD", "HOST", "PORT"]

  /** `os.environ.get('AWX_TEST_DATABASE_<opt>')` when it is truthy, i.e. present and non-empty. */
  function TestOverride(environ: map<string, string>, opt: string): (r: Option<string>)
    ensures r.Some? <==> TEST_DATABASE_PREFIX + opt in environ && environ[TEST_DATABASE_PREFIX + opt] != ""
    ensures r.Some? ==> r.value == environ[TEST_DATABASE_PREFIX + opt]
  {
    var name := TEST_DATABASE_PREFIX + opt;
    if name in environ && environ[name] != "" then Some(environ[name]) else None
  }

  /** The options among `opts` that the environment overrides. */
  function OverriddenOptions(environ: map<string, string>, opts: seq<string>): set<string> {
    set opt | opt in opts && TestOverride(environ, opt).Some?
  }

  /** The database entry after the loop has visited `opts` in order. */
  function ApplyOverrides(db: map<string, string>, environ: map<string, string>, opts: seq<string>): (r: map<string, string>)
    // No key is dropped; `ApplyOverridesEffect` gives the whole result.
    ensures db.Keys <= r.Keys
  {
    if opts == [] then db
    else
      var before := ApplyOverrides(db, environ, opts[..|opts| - 1]);
      var opt := opts[|opts| - 1];
      match TestOverride(environ, opt)
      case Some(v) => before[opt := v]
      case None => before
  }

  /**
   * The override loop writes the environment's value into every overridden option, leaves
   * every other key as it was, and adds no key beyond the overridden options.
   */
  lemma {:induction false} ApplyOverridesEffect(db: map<string, string>, environ: map<string, string>, opts: seq<string>)
    ensures ApplyOverrides(db, environ, opts).Keys == db.Keys + OverriddenOptions(environ, opts)
    ensures forall k :: k in OverriddenOptions(environ, opts) ==>
      ApplyOverrides(db, environ, opts)[k] == TestOverride(environ, k).value
    ensures forall k :: k in db && k !in OverriddenOptions(environ, opts) ==>
      ApplyOverrides(db, environ, opts)[k] == db[k]
  {
    if opts != [] {
      var init := opts[..|opts| - 1];
      ApplyOverridesEffect(db, environ, init);
      assert opts == init + [opts[|opts| - 1]];
      assert OverriddenOptions(environ, opts) ==
        OverriddenOptions(environ, init) + (if TestOverride(environ, opts[|opts| - 1]).Some? then {opts[|opts| - 1]} else {});
    }
  }

  /** Running the override loop a second time changes nothing. */
  lemma ApplyOverridesIdempotent(db: map<string, string>, environ: map<string, string>)
    ensures ApplyOverrides(ApplyOverrides(db, environ, DATABASE_OPTIONS), environ, DATABASE_OPTIONS)
         == ApplyOverrides(db, environ, DATABASE_OPTIONS)
  {
    var once := ApplyOverrides(db, environ, DATABASE_OPTIONS);
    ApplyOverridesEffect(db, environ, DATABASE_OPTIONS);
    ApplyOverridesEffect(once, environ, DATABASE_OPTIONS);
  }

  /** With only `AWX_TEST_DATABASE_HOST` set, only the host of the default database changes. */
  lemma OnlyHostOverridden(db: map<string, string>, host: string)
    requires host != ""
    ensures ApplyOverrides(db, map[TEST_DATABASE_PREFIX + "HOST" := host], DATABASE_OPTIONS)
         == db["HOST" := host]
  {
    var environ := map[TEST_DATABASE_PREFIX + "HOST" := host];
    ApplyOverridesEffect(db, environ, DATABASE_OPTIONS);
    forall opt | opt in DATABASE_OPTIONS && opt != "HOST"
      ensures TestOverride(environ, opt).None?
    {
      assert TEST_DATABASE_PREFIX + opt != TEST_DATABASE_PREFIX + "HOST" by {
        assert (TEST_DATABASE_PREFIX + opt)[|TEST_DATABASE_PREFIX|..] == opt;
      }
    }
    assert TestOverride(environ, "HOST") == Some(host);
    assert OverriddenOptions(environ, DATABASE_OPTIONS) == {"HOST"};
  }

  /** One more iteration of the loop: the next option's override, if any, is written on top. */
  lemma ApplyOverridesStep(environ: map<string, string>, opts: seq<string>, i: nat)
    requires i < |opts|
    ensures forall db: map<string, string> {:trigger ApplyOverrides(db, environ, opts[..i + 1])} ::
      ApplyOverrides(db, environ, opts[..i + 1]) ==
        match TestOverride(environ, opts[i])
        case Some(v) => ApplyOverrides(db, environ, opts[..i])[opts[i] := v]
        case None => ApplyOverrides(db, environ, opts[..i])
    ensures OverriddenOptions(environ, opts[..i + 1]) ==
      OverriddenOptions(environ, opts[..i]) + (if TestOverride(environ, opts[i]).Some? then {opts[i]} else {})
  {
    assert opts[..i + 1][..i] == opts[..i];
    assert opts[..i + 1] == opts[..i] + [opts[i]];
  }

  /** The part of Django's settings object that `prepare_env` writes: `DATABASES`. */
  class Settings {
    var databases: map<string, map<string, string>>

    constructor (databases: map<string, map<string, string>>)
      ensures this.databases == databases
    {
      this.databases := databases;
    }

    /**
     * The `AWX_TEST_DATABASE_*` loop. It returns false when `DATABASES['default']` is
     * missing and an override is due, where Python raises `KeyError` before writing anything.
     */
    method ApplyTestDatabaseOverrides(environ: map<string, string>) returns (ok: bool)
      modifies this
      ensures ok <==> "default" in old(databases) || OverriddenOptions(environ, DATABASE_OPTIONS) == {}
      ensures !ok ==> databases == old(databases)
      ensures ok && "default" in old(databases) ==>
        databases == old(databases)["default" := ApplyOverrides(old(databases)["default"], environ, DATABASE_OPTIONS)]
      ensures ok && "default" !in old(databases) ==> databases == old(databases)
    {
      ok := true;
      for i := 0 to |DATABASE_OPTIONS|
        invariant "default" in old(databases) ==>
          databases == old(databases)["default" := ApplyOverrides(old(databases)["default"], environ, DATABASE_OPTIONS[..i])]
        invariant "default" !in old(databases) ==>
          databases == old(databases) && OverriddenOptions(environ, DATABASE_OPTIONS[..i]) == {}
      {
        var opt := DATABASE_OPTIONS[i];
        var name := TEST_DATABASE_PREFIX + opt;
        ApplyOverridesStep(environ, DATABASE_OPTIONS, i);
        if name in environ && environ[name] != "" {
          if "default" !in databases {
            assert opt in OverriddenOptions(environ, DATABASE_OPTIONS);
            return false;
          }
          databases := databases["default" := databases["default"][opt := environ[name]]];
        }
      }
      assert DATABASE_OPTIONS[..|DATABASE_OPTIONS|] == DATABASE_OPTIONS;
    }
  }

  /**
   * Whether `make_debug_cursor` is replaced by the plain cursor wrapper: `DEBUG` is on and
   * `SQL_DEBUG` is present and false. `sqlDebug` is the truthiness of `SQL_DEBUG`, `None`
   * when the setting is absent, which counts as true.
   */
  function InstallsLightweightCursor(debug: bool, sqlDebug: Option<bool>): (r: bool)
    ensures r <==> debug && sqlDebug == Some(false)
  {
    debug && !sqlDebug.GetOr(true)
  }
}
