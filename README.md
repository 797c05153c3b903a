# AWX bootstrap: a verified Dafny model

AWX's package `__init__` (`awx/__init__.py`) starts every `awx-manage` process. It picks the
Django settings module from the run mode. It points Django's command discovery at a
version that also accepts compiled `.pyc` files. It lets the test suite override the
default database connection through `AWX_TEST_DATABASE_*` variables. It can switch off
in-memory SQL capture in debug mode. It gives `runserver` a configured default
address:port. It then prints the version, reports a permission error, or hands the
command line to Django.

This project models those rules without Django or I/O. The directory listing, the process
environment, the argument vector, the secret key and the version string are parameters.
Writing to standard output, exiting and calling into Django's
`execute_from_command_line` are recorded as a list of effects.

Modules:

- `Wrappers`: `Option` and dictionary lookup (`d.get(key)`).
- `Decimal`: ASCII `str.isdigit`, `int()` on digit strings, the `%d` conversion, and their round trips.
- `Commands`: `find_commands`, as a loop over the listing. It is proved against `Discovered`, the accumulator the loop builds.
- `PrepareEnv`: the `DJANGO_SETTINGS_MODULE` default, the test-database override loop on a `Settings` object, and the debug-cursor condition.
- `Runserver`: the address:port rule of the wrapped `runserver` handler.
- `Dispatch`: the branches of `manage`, as a list of effects.

`getattr(settings, 'SQL_DEBUG', True)` treats an unset flag as true, so the lightweight
cursor is not installed (`InstallsLightweightCursor`).

## Model

| member | source | states |
|---|---|---|
| `Commands.Stem` | awx/__init__.py:31-36 | an entry contributes a name iff it is not private and ends in `.py` or `.pyc`; the name plus that extension is the entry |
| `Commands.Discovered` | awx/__init__.py:28-36 | the accumulator the loop builds: at most one name per entry and no private name; fully characterised by `DiscoveredSound`, `DiscoveredComplete`, `DiscoveredDistinct` and `DiscoveredOrder` |
| `Commands.FindCommands` | awx/__init__.py:25-39 | a failed listing (`OSError`) gives no commands; otherwise the loop's result is exactly the first-seen sequence of stems `Discovered` |
| `Commands.DiscoveredSound` | awx/__init__.py:33-36 | every returned name is the stem of some entry of the listing |
| `Commands.DiscoveredComplete` | awx/__init__.py:33-36 | every non-private `.py`/`.pyc` entry's stem is returned |
| `Commands.DiscoveredDistinct` | awx/__init__.py:33-36 | returned names are pairwise distinct |
| `Commands.DiscoveredOrder` | awx/__init__.py:28-36 | names come in order of first appearance: an earlier name's entry precedes every entry of a later name |
| `Commands.DiscoveredProperties` | awx/__init__.py:30-36 | no returned name starts with `_`; each has `name.py` or `name.pyc` among the non-private entries; each such entry contributes; no duplicates |
| `Commands.DiscoveredExample` | awx/__init__.py:30-36 | `foo.py`, `_bar.py`, `baz.pyc` give exactly `foo`, `baz` |
| `PrepareEnv.SetDefaultSettingsModule` | awx/__init__.py:44 | every existing variable keeps its value; `DJANGO_SETTINGS_MODULE` ends up set, to `awx.settings.<mode>` when it was absent; no other key is added |
| `PrepareEnv.SetDefaultSettingsModuleStable` | awx/__init__.py:44 | once set, a later default of any mode changes nothing |
| `PrepareEnv.SetDefaultSettingsModuleChanges` | awx/__init__.py:44 | the environment changes iff the variable was absent |
| `PrepareEnv.TestOverride` | awx/__init__.py:67 | an override exists iff `AWX_TEST_DATABASE_<opt>` is present and non-empty, and it is that variable's value |
| `PrepareEnv.ApplyOverrides` | awx/__init__.py:66-68 | the database entry after the loop visits the options in order; no key is dropped; characterised by `ApplyOverridesEffect` |
| `PrepareEnv.ApplyOverridesStep` | awx/__init__.py:66-68 | one more iteration writes the next option's override, if any, on top of the previous entry |
| `PrepareEnv.ApplyOverridesEffect` | awx/__init__.py:66-68 | overridden options take the environment's value; every other key is unchanged; the key set grows only by overridden options |
| `PrepareEnv.ApplyOverridesIdempotent` | awx/__init__.py:66-68 | running the six-key loop twice equals running it once |
| `PrepareEnv.OnlyHostOverridden` | awx/__init__.py:66-68 | with only `AWX_TEST_DATABASE_HOST` set, only `HOST` of the default database changes |
| `PrepareEnv.Settings.ApplyTestDatabaseOverrides` | awx/__init__.py:66-68 | the in-place loop replaces `DATABASES['default']` by the overridden entry and leaves other databases alone; with `default` missing and an override due, it fails (`KeyError`) with nothing changed |
| `PrepareEnv.InstallsLightweightCursor` | awx/__init__.py:70-73 | the cursor patch is installed iff `DEBUG` holds and `SQL_DEBUG` is present and false; an absent `SQL_DEBUG` counts as true |
| `Decimal.FormatNat` | awx/__init__.py:83 | `%d` of a natural number is a non-empty digit string without leading zeros, starting with `0` iff the number is 0 |
| `Decimal.Parse` | awx/__init__.py:85 | `int()` of a non-empty ASCII digit string is a number below 10 to the power of its length; `ParseFormatNat`, `FormatParse` and `ParseLeadingZero` relate it to `%d`. The empty string reads as 0 only as a model convenience: `int("")` raises `ValueError`, and line 85 parses only strings that pass `isdigit`, which are non-empty |
| `Decimal.FormatInt` | awx/__init__.py:83 | `%d` of an integer is canonical digits that read back as the number, with a leading minus sign and the digits of its magnitude for a negative number |
| `Decimal.ParseFormatNat` | awx/__init__.py:83-85 | `int()` of the `%d` text of `n` is `n` |
| `Decimal.FormatParse` | awx/__init__.py:85 | `%d` of `int(s)` is `s` for a digit string without leading zeros |
| `Decimal.ParseLeadingZero` | awx/__init__.py:85 | for a non-empty digit string, a leading zero does not change the value `int()` reads |
| `Runserver.EffectiveAddrport` | awx/__init__.py:82-85 | the address:port the original handler receives is never empty nor a bare number, and a rewritten value starts with the default address and a colon; the cases are given by `AddrportDefaulted`, `AddrportBarePort`, `AddrportPassThrough` and `AddrportIdempotent` |
| `Runserver.DevserverDefaults` | awx/__init__.py:76-77 | the default address is `DEVSERVER_DEFAULT_ADDR`, or `127.0.0.1` when unset; the default port is `DEVSERVER_DEFAULT_PORT`, or 8000 when unset |
| `Runserver.UnsetDevserverDefaults` | awx/__init__.py:76-83 | with neither setting present, a missing or empty address:port becomes `127.0.0.1:8000` |
| `Runserver.HandleOptions` | awx/__init__.py:81-86 | after the wrapper runs, `addrport` holds the effective address:port, and every other option is unchanged |
| `Runserver.AddrportDefaulted` | awx/__init__.py:82-83 | a missing or empty address:port becomes `<default addr>:<p>` with `p` canonical and reading back as the default port |
| `Runserver.AddrportBarePort` | awx/__init__.py:84-85 | a bare port becomes `<default addr>:<p>` where `p` has the same value without leading zeros; a port without leading zeros is kept verbatim |
| `Runserver.AddrportLeadingZero` | awx/__init__.py:84-85 | zero-padding a bare port does not change the result |
| `Runserver.AddrportPassThrough` | awx/__init__.py:82-86 | a non-empty, non-numeric address:port is passed on unchanged |
| `Runserver.AddrportIdempotent` | awx/__init__.py:82-85 | applying the rule to its own result changes nothing |
| `Runserver.AddrportExamples` | awx/__init__.py:82-85 | `9000` becomes `<default addr>:9000`; `0.0.0.0:9000` is unchanged |
| `Dispatch.IsVersionRequest` | awx/__init__.py:97 | `version` or `--version` follows the program name; `IsHelpRequest` shows it excludes a help request |
| `Dispatch.IsHelpRequest` | awx/__init__.py:102 | no argument, or `-h`, `--help` or `help` first; never also a version request (`version`/`--version` first, line 97) |
| `Dispatch.Basename` | awx/__init__.py:105 | `os.path.basename` is no longer than the path; characterised by `BasenameSuffix` |
| `Dispatch.BasenameSuffix` | awx/__init__.py:105 | the program name is the longest slash-free suffix of `argv[0]` |
| `Dispatch.BasenameOfJoin` | awx/__init__.py:105 | the basename of `dir/name` is `name` |
| `Dispatch.Manage` | awx/__init__.py:97-109 | a version request gives only the version line; otherwise, with a readable secret key, the only effect is delegating the full `argv` |
| `Dispatch.ManageDelegation` | awx/__init__.py:97-109 | Django only ever receives the full `argv`, and receives it iff no version was requested and either the key is readable or help was asked for |
| `Dispatch.ManageExit` | awx/__init__.py:101-107 | `manage` calls `sys.exit(1)` iff no version was requested, the key is the permission-denied sentinel and `argv` is non-empty; no other exit status is used and the call is the last effect |
| `Dispatch.ManagePermissionDenied` | awx/__init__.py:101-107 | on the permission-denied path the last two effects are the message naming the program and exit 1; help and a blank line come first iff help was asked for |
| `Dispatch.ManagePermissionDeniedExample` | awx/__init__.py:101-107 | with no arguments and an unreadable key: help, blank line, the message for `awx-manage`, exit 1 |

## Left out

- The version lookup through `pkg_resources` and the Celery app import (lines 9-14): the version is an opaque string parameter of `Manage`.
- The `awx.devonly` import probe (lines 18-22): the mode is the `Mode` parameter.
- `warnings.simplefilter` under `not settings.DEBUG` (lines 48-49) and the `django.utils.six` alias shim (lines 55-62): interpreter and package glue with no state this model keeps.
- The rebinding of Django functions (lines 51-52, 71-73, 78-79, 88) and the calls into `original_handle`, `execute_from_command_line` and `CursorWrapper`: the model states the rule each patch installs, and `Delegate` stands for the call.
- The order in which `manage` runs `prepare_env` before dispatching (line 93): `Manage` models only the branch taken after preparation.
- Real `os.listdir`, `os.environ`, `sys.stdout` and `sys.exit`: they are parameters and effects.
- `Decimal.IsDigitString`: only ASCII `0`-`9`, not Python's Unicode-aware `str.isdigit`. Digits such as superscripts, which `isdigit` accepts and `int()` rejects, are outside the model.
- `PrepareEnv.Settings`: database entries are `map<string, string>`. Non-string setting values, such as an integer `PORT` or an `OPTIONS` dict, are not represented.
- `Runserver.HandleOptions`: the default address and port are parameters; `Runserver.DevserverDefaults` gives their values from the settings. `DEVSERVER_DEFAULT_PORT` is taken as an integer, so `int()` of a string setting and its `ValueError` are not modelled. `options` holds only optional strings.
- `Runserver.AddrportDefaulted`: states the read-back only for a non-negative default port. A negative one is written with a minus sign (`Decimal.FormatInt`).
- The exit status of a delegated command: it is whatever `execute_from_command_line` does, outside this model. The version branch (lines 97-98) writes the version and returns without calling Django or `sys.exit`.
- `Dispatch.Manage`: after a `Delegate`, the later effects happen only if `execute_from_command_line` returns; a delegated call that exits or raises ends the process there.
- `Dispatch.Manage`: an empty `argv` on the permission-denied path ends the process with `IndexError` (line 105), recorded as the `IndexError` effect rather than an exit.
