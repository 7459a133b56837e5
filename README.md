# Junos Ansible modules in Dafny

A model of the decision logic of the Juniper `juniper.device` Ansible
collection, with the properties it promises proved:

- **The common module object** (`juniper_junos_common.py`, class
  `JuniperJunosModule`):
  - the connection parameters `initialize_params` settles and the console string it parses;
  - the `ignore_warning`, `rollback` and list-of-dicts options;
  - the connection and the candidate-configuration session (`open`, `close`,
    `open_configuration`, `close_configuration`, rollback, check, diff, load,
    commit, `get_configuration`);
  - the cleanup `fail_json` and `exit_json` do before the process ends;
  - `ping`'s reading of the reply;
  - where `save_text_output` writes;
  - the MD5-verified and unverified file transfers.
- **`rpc.py`**: option checking, building each RPC request, the dispatch loop
  that records one result per RPC, and the overall `failed` flag.
- **`software.py`**:
  - `parse_version_from_filename`;
  - reconciling the package options (URL, local, remote, `no_copy`, `cleanfs`,
    file names);
  - the "changed" decision from the routing engines' versions;
  - the precedence of the install parameters;
  - the RPC timeout lowered and restored around a local reboot.
- **`pmtud.py`**: option checks, the connectivity probe, and the binary search
  for the path MTU.

The device library (PyEZ and ncclient), the broker of delegated connections,
the file system and the ping RPC are not modelled. Each call into them is a
parameter: an outcome (`Done` or `Raised(error)`), a reply value, or a
function such as `digest`, `abspath`, `normpath`, `safeEval`, `checkTypeDict`
or `ping`. The model decides the rest.

The common module object is the class `Session.JunosModule`. Its fields are
the ones the source updates in place: `params`, `dev`, `config`,
`destfile`, plus two added ones:
- `calls`, every library call in order;
- `exit`, how the process ended: `Completed`, `Failed` (`fail_json`), or
  `Crashed` (an uncaught Python exception).

Each method is proved to reach exactly the state described by a pure step
function in `SessionEffects`. The lemmas in `SessionLaws` state what those
step functions promise. `rpc.py`, `software.py` and `pmtud.py` have their
loops as methods. Each method is proved equal to a specification function,
and lemmas state the source's promises about that function.

Files:
- `text.dfy`: string helpers and decimal parsing.
- `junos_types.dfy`: shared values.
- `pyformat.dfy`: Python `%` formatting, enough for the message templates used.
- `params.dfy`: option parsing.
- `config_ops.dfy`: configuration-session decisions and output paths.
- `ping.dfy`: reading a ping reply.
- `transfer.dfy`: hashing and checksum rules.
- `effects.dfy`: the session's step functions.
- `laws.dfy`: their laws.
- `session.dfy`: the class.
- `rpc.dfy`, `software.dfy`, `pmtud.dfy`: the three modules.

Where the documentation and the code disagree, the model follows the code:
- `fail_json` closes the configuration first. If that close fails, it calls
  `fail_json` again with the close error. That nested call ends the process,
  so the reported message is the close failure, not the original one
  (`SessionLaws.FailEffectEnds`).
- The `pmtud.py` documentation gives `min_test_size` as
  `max_size - max_range + 1`. The code also raises it to at least 68
  (`pmtud.py:374-376`), and the model does too (`Pmtud.MinTestSize`).

The operations also follow the code where it is evidently wrong. For the
first three points below, "## Findings" names the corrected definitions,
which sit beside the operations with their intended properties proved. The
fourth is modelled only as written:
- `get_configuration` crashes with a TypeError on an unrecognised database
  or format, with no teardown (`SessionEffects.GetConfigurationStep` uses
  `ConfigOps.GetConfigValidationAsWritten`).
- `software.py` appends the "same as Targeted version" line with the
  version and the routing engine swapped (`SoftwareInstall.SameLines` uses
  `SameLineAsWritten`).
- `pmtud.py`'s failure message quotes `min_test_size` as computed, which is
  `max_size + 1` when `max_range` is 0 (`Pmtud.BelowMinimumMessage`).
- On a delegated connection, `rpc.py:572-573` raises the `ConnectError`
  class without arguments when an error's text names ConnectError. PyEZ's
  `ConnectError` constructor requires the device argument, so that raise
  throws TypeError and the module crashes (`RpcModule.SendStep`). PyEZ is
  not part of this model; this rests on its constructor taking a required
  `dev` argument. The bare `RpcError` raise is fine, because all of
  RpcError's constructor arguments are optional.
  This point is not claimed as a finding: its evidence is the signature
  of a library outside this model, not the module's own code.

## Model

| member | source | states |
|---|---|---|
| JunosTypes.ModeNames | ansible_collections/juniper/device/plugins/module_utils/juniper_junos_common.py:551 | the five configuration-mode names are exactly the strings accepted as modes, and each name parses back to its mode |
| JunosTypes.StoreLookup | ansible_collections/juniper/device/plugins/module_utils/juniper_junos_common.py:1390 | `d[k] = v` on an ordered dict: k then maps to v and every other key keeps its value |
| ModuleParams.InitializedShape | ansible_collections/juniper/device/plugins/module_utils/juniper_junos_common.py:706-762 | accepted parameters have a host and a user and no console. They always have a port, which is an int outside serial mode. Baud and attempts are present exactly in telnet and serial mode |
| ModuleParams.InitializedDefaults | ansible_collections/juniper/device/plugins/module_utils/juniper_junos_common.py:725-732 | with no console, port, baud, attempts or mode, the port becomes 830 and nothing else changes |
| ModuleParams.InitializedFailureOrder | ansible_collections/juniper/device/plugins/module_utils/juniper_junos_common.py:719-741 | a missing host is reported before a missing user. A port that is not an integer outside serial mode is reported only when host and user are present, with that port in the message |
| ModuleParams.TelnetConsole | ansible_collections/juniper/device/plugins/module_utils/juniper_junos_common.py:858-871 | `--telnet host,N` yields telnet mode, that host and port N, no console, baud 9600 and attempts 10 |
| ModuleParams.TelnetApplied | ansible_collections/juniper/device/plugins/module_utils/juniper_junos_common.py:858-887 | the console parse of `--telnet host,N` sets mode, host and int port and removes the console option |
| ModuleParams.SerialConsole | ansible_collections/juniper/device/plugins/module_utils/juniper_junos_common.py:873-887 | without `--telnet`, mode is serial. Each of port, baud and attempts the console gives overrides the parameter as a string. One it omits keeps the given value, or its serial default (`/dev/ttyUSB0`, 9600, 10) when that is unset too |
| Text.ParseDecimal | ansible_collections/juniper/device/plugins/module_utils/juniper_junos_common.py:1154 | `int(str(n)) == n` for every integer n, negative ones included |
| Text.ParseUnderscore | ansible_collections/juniper/device/plugins/module_utils/juniper_junos_common.py:736 | `int()` ignores a single underscore between two runs of digits, so `int("8_30") == 830` for the port, the console port and the rollback id alike |
| ModuleParams.RollbackDecimal | ansible_collections/juniper/device/plugins/module_utils/juniper_junos_common.py:1147-1164 | the string of n is accepted exactly when 0 <= n <= 49 and then means n; a non-string value is refused with its value in the failure |
| ModuleParams.RollbackRange | ansible_collections/juniper/device/plugins/module_utils/juniper_junos_common.py:1147-1164 | an accepted rollback is rescue or a number in 0..49, and "no rollback" comes back exactly when the option is absent |
| ModuleParams.FirstNonString | ansible_collections/juniper/device/plugins/module_utils/juniper_junos_common.py:1116-1125 | finds a non-string element exactly when one exists, and the one found is in the list |
| ModuleParams.IgnoreWarningCases | ansible_collections/juniper/device/plugins/module_utils/juniper_junos_common.py:1100-1131 | a list of two or more is accepted iff all elements are strings and is returned element for element. An empty list is refused. One element is a bool when boolean() accepts it, and otherwise must be a string |
| ModuleParams.Pop | ansible_collections/juniper/device/plugins/module_utils/juniper_junos_common.py:1060-1061 | popping a key that is absent leaves the dict as it was; popping one that is present removes one item |
| ModuleParams.Converted | ansible_collections/juniper/device/plugins/module_utils/juniper_junos_common.py:1063-1082 | an accepted dict keeps its length and its keys, which are all strings |
| ModuleParams.ParseListOfDicts | ansible_collections/juniper/device/plugins/module_utils/juniper_junos_common.py:983-1084 | the element loop, with `allow_bool_values` carried from one element to the next, returns exactly `ListOfDicts` |
| ModuleParams.DictsFromPlain | ansible_collections/juniper/device/plugins/module_utils/juniper_junos_common.py:1037-1084 | a list of dicts with string keys and no `allow_bool_values` key comes back unchanged |
| ModuleParams.ListOfDictsPlain | ansible_collections/juniper/device/plugins/module_utils/juniper_junos_common.py:1009-1084 | an option that evaluates to such a list parses to exactly those dicts |
| ModuleParams.DictsFromLength | ansible_collections/juniper/device/plugins/module_utils/juniper_junos_common.py:1038-1084 | every accepted element yields exactly one dict |
| ModuleParams.ConvertedPlain | ansible_collections/juniper/device/plugins/module_utils/juniper_junos_common.py:1063-1082 | with conversion off, a dict with string keys converts to the same items |
| ConfigOps.WarningsKeepDefault | ansible_collections/juniper/device/plugins/module_utils/juniper_junos_common.py:1237-1246 | a bool ignore_warning replaces the default list. Otherwise the list is the discard warning followed by the caller's patterns, in order |
| ConfigOps.OpenChecksAccept | ansible_collections/juniper/device/plugins/module_utils/juniper_junos_common.py:1252-1260 | a mode is accepted iff it is one of the five names, and an ephemeral instance only with ephemeral mode; a known mode with an instance is refused for the instance |
| ConfigOps.OpenTargets | ansible_collections/juniper/device/plugins/module_utils/juniper_junos_common.py:1264-1292 | only exclusive mode locks; ephemeral mode opens the named instance or the default one |
| ConfigOps.ParseDatabase | ansible_collections/juniper/device/plugins/module_utils/juniper_junos_common.py:539 | a recognised database name maps to the database of that name |
| ConfigOps.ParseConfigFormat | ansible_collections/juniper/device/plugins/module_utils/juniper_junos_common.py:537 | a recognised format name maps to the format of that name |
| ConfigOps.FormatNames | ansible_collections/juniper/device/plugins/module_utils/juniper_junos_common.py:537-539 | every format and database name is recognised as itself |
| ConfigOps.ValidationAsWrittenCrashes | ansible_collections/juniper/device/plugins/module_utils/juniper_junos_common.py:1376-1388 | as written, an unrecognised database or format raises TypeError while building the message, where the intended validation reports it |
| ConfigOps.RunningDatabaseCrashes | ansible_collections/juniper/device/plugins/module_utils/juniper_junos_common.py:1376-1381 | as written, database "running" raises TypeError; as intended it is reported as an invalid database |
| ConfigOps.DatabaseMessage | ansible_collections/juniper/device/plugins/module_utils/juniper_junos_common.py:1377-1381 | the intended message names the rejected database and the list of choices |
| ConfigOps.ValidationAccepts | ansible_collections/juniper/device/plugins/module_utils/juniper_junos_common.py:1376-1388 | exactly the listed database and format names are accepted, and the as-written code agrees with the intended one on them |
| ConfigOps.RequestOptions | ansible_collections/juniper/device/plugins/module_utils/juniper_junos_common.py:1390 | the get-config options carry the chosen database and format and every other option unchanged |
| ConfigOps.ConfigCheckedReturns | ansible_collections/juniper/device/plugins/module_utils/juniper_junos_common.py:1423-1471 | a configuration is returned iff the reply has the expected kind and, without a model, the format's root tag. Only set format is parsed, into the lines of its text |
| ConfigOps.SetLinesRoundTrip | ansible_collections/juniper/device/plugins/module_utils/juniper_junos_common.py:1437-1449 | set-format text written one statement per line parses back into those statements |
| ConfigOps.LoadArgsFlags | ansible_collections/juniper/device/plugins/module_utils/juniper_junos_common.py:1609-1631 | at most one of merge/overwrite/update/patch is set and none for replace or set. Set forces format "set", other actions keep the given format, and a path is given iff src is |
| ConfigOps.StrippedLines | ansible_collections/juniper/device/plugins/module_utils/juniper_junos_common.py:1625-1626 | each line loses its trailing newlines |
| ConfigOps.LoadTextSplits | ansible_collections/juniper/device/plugins/module_utils/juniper_junos_common.py:1625-1626 | splitting the loaded text on "\n" gives back the lines without trailing newlines, when they hold no other newline |
| ConfigOps.NameSuffixShape | ansible_collections/juniper/device/plugins/module_utils/juniper_junos_common.py:1906-1911 | the file-name suffix is empty iff the name is "config", and is otherwise "_" plus the name with spaces and pipes replaced by underscores |
| ConfigOps.OutputPlanRules | ansible_collections/juniper/device/plugins/module_utils/juniper_junos_common.py:1888-1913 | output is appended iff it is not a diff, `dest` is set and a first save happened. Nothing is written without a destination. Diffs go to `diffs_file` or `<host>.diff` |
| ConfigOps.SecondSaveAppends | ansible_collections/juniper/device/plugins/module_utils/juniper_junos_common.py:1898-1903 | the first save to `dest` overwrites and remembers it; the second appends to the same file |
| PyFormat.FormatLiteral | ansible_collections/juniper/device/plugins/module_utils/juniper_junos_common.py:1378-1380 | text without '%' is copied through by `%` formatting |
| PyFormat.FormatStr | ansible_collections/juniper/device/plugins/module_utils/juniper_junos_common.py:1378-1380 | a `%s` conversion inserts its string argument |
| PyFormat.FormatSpaceIntOnStr | ansible_collections/juniper/device/plugins/module_utils/juniper_junos_common.py:1378-1380 | a space-flagged `%i` conversion applied to a str raises TypeError |
| PyFormat.FormatOneString | ansible_collections/juniper/device/plugins/module_utils/juniper_junos_common.py:1895 | a template with one `%s` renders with the argument in its place |
| PyFormat.FormatTwoStrings | ansible_collections/juniper/device/plugins/module_utils/juniper_junos_common.py:1378-1380 | a template with two `%s` renders with both arguments in place |
| PyFormat.FlagsLength | ansible_collections/juniper/device/plugins/module_utils/juniper_junos_common.py:1378-1380 | counts exactly the conversion flags at the head of a conversion |
| PingCheck.FirstMissing | ansible_collections/juniper/device/plugins/module_utils/juniper_junos_common.py:1813-1819 | names a field without a value exactly when one exists |
| PingCheck.PingReturnedIff | ansible_collections/juniper/device/plugins/module_utils/juniper_junos_common.py:1772-1858 | results are returned iff the reply is an element with no errors, all required fields and a numeric loss, plus every round-trip field when the loss is below 100 |
| PingCheck.PingReturnedResults | ansible_collections/juniper/device/plugins/module_utils/juniper_junos_common.py:1821-1858 | returned results fail iff the loss exceeds the acceptable loss. They carry the summary's fields and the "Loss ...%, (Sent ... \| Received ...)" message, plus warnings iff the reply had some |
| PingCheck.PingExitsFail | ansible_collections/juniper/device/plugins/module_utils/juniper_junos_common.py:1755-1843 | every early exit_json reports failed; errors in the reply exit first, listing every error message; a reply that is not an element is refused |
| Transfer.HashFile | ansible_collections/juniper/device/plugins/module_utils/juniper_junos_common.py:1969-1974 | the block loop hashes the whole file: the blocks concatenate to the content, each is non-empty and at most 65536 bytes, and all but the last are full |
| Transfer.LocalMd5 | ansible_collections/juniper/device/plugins/module_utils/juniper_junos_common.py:1976-1995 | local_md5 through the block loop returns exactly `LocalChecksum`: the digest, "no_file" for a missing file only when fetching, else the error |
| Transfer.MismatchStatusNames | ansible_collections/juniper/device/plugins/module_utils/juniper_junos_common.py:2038-2042 | the mismatch status starts with the failure text and names both checksums |
| Transfer.VerifiedCopyMeaning | ansible_collections/juniper/device/plugins/module_utils/juniper_junos_common.py:2016-2054 | "File pushed OK" only when the target's new checksum equals the source's. "Already present" iff both checksums were read, are equal and the target is not missing. A mismatch only after a copy that returned |
| Transfer.PushNeedsLocalFile | ansible_collections/juniper/device/plugins/module_utils/juniper_junos_common.py:1984-1991 | a push whose local file cannot be opened crashes with that error: "no_file" is accepted only when fetching |
| Transfer.UnverifiedCopyMeaning | ansible_collections/juniper/device/plugins/module_utils/juniper_junos_common.py:2056-2133 | the unverified transfers report success iff nothing was raised and, for FTP, the copy returned true. A local connection turns an exception into an "Error: ..." status |
| SessionLaws.CloseConfigEnds | ansible_collections/juniper/device/plugins/module_utils/juniper_junos_common.py:1301-1326 | close_configuration forgets a local configuration and keeps the device. When its failure ends the process, the reason is the close error and the device is closed |
| SessionLaws.FailEffectEnds | ansible_collections/juniper/device/plugins/module_utils/juniper_junos_common.py:810-829 | fail_json always ends the process and forgets a local configuration. A failure reports the close error if closing the configuration failed, and the given failure otherwise, with the device closed. It is exactly the given failure when the configuration close did not end the process and the device close returned or raised ConnectError, RpcError or TimeoutExpiredError |
| SessionLaws.ResolveGoesOn | ansible_collections/juniper/device/plugins/module_utils/juniper_junos_common.py:810-829 | after an operation the process goes on exactly when the operation returned |
| SessionLaws.ResolveThen | ansible_collections/juniper/device/plugins/module_utils/juniper_junos_common.py:810-829 | steps that return are followed by the next ones from the state they reached |
| SessionLaws.CloseConfigDeviceLast | ansible_collections/juniper/device/plugins/module_utils/juniper_junos_common.py:1312-1326 | close_configuration closes the device only as the last call of the fail_json it starts |
| SessionLaws.FailEffectDeviceLast | ansible_collections/juniper/device/plugins/module_utils/juniper_junos_common.py:817-822 | fail_json closes the configuration before the device: a device close is its teardown's last call |
| SessionLaws.FailJsonUnlocksFirst | ansible_collections/juniper/device/plugins/module_utils/juniper_junos_common.py:817-822 | fail_json on an open exclusive configuration unlocks, then closes the device, then reports the failure |
| SessionLaws.CloseTwice | ansible_collections/juniper/device/plugins/module_utils/juniper_junos_common.py:1202-1210 | close forgets the device before tearing it down, so a second close does nothing |
| SessionLaws.CloseConfigTwice | ansible_collections/juniper/device/plugins/module_utils/juniper_junos_common.py:1312-1318 | close_configuration forgets the configuration first, so a second call does nothing |
| SessionLaws.CloseErrors | ansible_collections/juniper/device/plugins/module_utils/juniper_junos_common.py:1200-1222 | close re-raises a ConnectError or RpcError iff asked to, and any other error ends the process |
| SessionLaws.CloseConfigCall | ansible_collections/juniper/device/plugins/module_utils/juniper_junos_common.py:1319-1323 | close_configuration unlocks an exclusive configuration and sends close-configuration for the other modes |
| SessionLaws.ExitKeepsConfiguration | ansible_collections/juniper/device/plugins/module_utils/juniper_junos_common.py:791-808 | exit_json leaves the configuration as it is and closes at most the device. It reports the given failed flag whenever that close returned or raised ConnectError, RpcError or TimeoutExpiredError, and crashes only on another error |
| SessionLaws.OperationsRequireOpen | ansible_collections/juniper/device/plugins/module_utils/juniper_junos_common.py:1493-1494 | with no device or configuration open, rollback, check, diff, load and commit fail with "not open" before any call. Commit with no device crashes first on reading its timeout |
| SessionLaws.RollbackRange | ansible_collections/juniper/device/plugins/module_utils/juniper_junos_common.py:1496-1522 | a rollback makes a call iff its id is rescue or 0..49; any other number is reported as unrecognised |
| SessionLaws.CommitUsesDeviceTimeout | ansible_collections/juniper/device/plugins/module_utils/juniper_junos_common.py:1683-1712 | the commit uses the device's timeout whenever it is not zero, and the caller's otherwise |
| SessionLaws.OpenConfigurationLaws | ansible_collections/juniper/device/plugins/module_utils/juniper_junos_common.py:1248-1299 | with a configuration open nothing happens, and a bad mode or instance is refused before any call. Otherwise the mode is remembered iff the lock or open RPC returned, and the device is opened first if needed |
| SessionLaws.OpenConfigurationIdempotent | ansible_collections/juniper/device/plugins/module_utils/juniper_junos_common.py:1252 | after a successful open_configuration, a second one changes nothing |
| SessionLaws.GetConfigurationLaws | ansible_collections/juniper/device/plugins/module_utils/juniper_junos_common.py:1374-1472 | as written, a bad database or format crashes with TypeError before any call and with no teardown. A configuration is returned only when get-config returned one that passed the checks for that format |
| SessionLaws.PingExitFails | ansible_collections/juniper/device/plugins/module_utils/juniper_junos_common.py:1755-1858 | ping's early exits report failure, and results are returned only for a reply the verdict exits on or returns |
| SessionLaws.CopyStepAgrees | ansible_collections/juniper/device/plugins/module_utils/juniper_junos_common.py:2016-2221 | the session's verified transfer ends as the decision function says: returned with its status, failed with the mismatch status, or crashed with the same exception |
| SessionLaws.TransferStepAgrees | ansible_collections/juniper/device/plugins/module_utils/juniper_junos_common.py:2026-2050 | the copy-and-compare step ends as the copy-and-compare decision says |
| SessionLaws.CopyStepTransfers | ansible_collections/juniper/device/plugins/module_utils/juniper_junos_common.py:2025-2032 | the transfer is made iff both checksums were read and the target is missing or differs |
| Session.JunosModule.constructor | ansible_collections/juniper/device/plugins/module_utils/juniper_junos_common.py:593-705 | initialize_params, then open for a local connection: a failure ends the process with that reason before any call |
| Session.JunosModule.Open | ansible_collections/juniper/device/plugins/module_utils/juniper_junos_common.py:1166-1198 | open() reaches the state of `OpenStep` and sets the new device's timeout to the configured one |
| Session.JunosModule.OpenWanted | ansible_collections/juniper/device/plugins/module_utils/juniper_junos_common.py:1261-1262 | opens the device only when wanted and none is open |
| Session.JunosModule.Close | ansible_collections/juniper/device/plugins/module_utils/juniper_junos_common.py:1200-1222 | close() reaches `CloseEffect` and always leaves no device |
| Session.JunosModule.CloseConfiguration | ansible_collections/juniper/device/plugins/module_utils/juniper_junos_common.py:1301-1326 | close_configuration() reaches `CloseConfigEffect` |
| Session.JunosModule.FailJson | ansible_collections/juniper/device/plugins/module_utils/juniper_junos_common.py:810-829 | fail_json() reaches `FailEffect`, which ignores a TimeoutExpiredError from closing the device |
| Session.JunosModule.ExitJson | ansible_collections/juniper/device/plugins/module_utils/juniper_junos_common.py:791-808 | exit_json() reaches `ExitEffect`, which ignores a TimeoutExpiredError from closing the device |
| Session.JunosModule.ForwardCall | ansible_collections/juniper/device/plugins/module_utils/juniper_junos_common.py:1248-1250 | a delegated operation records one forwarded call |
| Session.JunosModule.Guard | ansible_collections/juniper/device/plugins/module_utils/juniper_junos_common.py:1497-1507 | a library call whose ConnectError and RpcError go to fail_json |
| Session.JunosModule.OpenConfiguration | ansible_collections/juniper/device/plugins/module_utils/juniper_junos_common.py:1228-1299 | open_configuration reaches `OpenConfigurationStep` |
| Session.JunosModule.OpenInMode | ansible_collections/juniper/device/plugins/module_utils/juniper_junos_common.py:1261-1299 | opening a checked mode reaches `OpenModeStep` |
| Session.JunosModule.OpenRequested | ansible_collections/juniper/device/plugins/module_utils/juniper_junos_common.py:1264-1298 | the lock or open-configuration RPC, remembering the mode once it returns |
| Session.JunosModule.RollbackConfiguration | ansible_collections/juniper/device/plugins/module_utils/juniper_junos_common.py:1474-1522 | rollback_configuration reaches `RollbackStep` |
| Session.JunosModule.CheckConfiguration | ansible_collections/juniper/device/plugins/module_utils/juniper_junos_common.py:1524-1546 | check_configuration reaches `CheckStep` |
| Session.JunosModule.DiffConfiguration | ansible_collections/juniper/device/plugins/module_utils/juniper_junos_common.py:1548-1571 | diff_configuration reaches `DiffStep` and returns its diff |
| Session.JunosModule.LoadConfiguration | ansible_collections/juniper/device/plugins/module_utils/juniper_junos_common.py:1573-1655 | load_configuration reaches `LoadStep` |
| Session.JunosModule.CommitConfiguration | ansible_collections/juniper/device/plugins/module_utils/juniper_junos_common.py:1657-1715 | commit_configuration reaches `CommitStep`, given the device's timeout as read before the open check |
| Session.JunosModule.GetConfiguration | ansible_collections/juniper/device/plugins/module_utils/juniper_junos_common.py:1328-1472 | get_configuration reaches `GetConfigurationStep` and returns its configuration; a crash while validating ends the process with no teardown |
| Session.JunosModule.GetValidated | ansible_collections/juniper/device/plugins/module_utils/juniper_junos_common.py:1390-1472 | get_configuration after validation: open if needed, fetch, check |
| Session.JunosModule.Fetch | ansible_collections/juniper/device/plugins/module_utils/juniper_junos_common.py:1401-1472 | the get-config call and the checks on its reply |
| Session.JunosModule.ConfigReply | ansible_collections/juniper/device/plugins/module_utils/juniper_junos_common.py:1420-1472 | the reply to get-config: a library error, or the configuration checked |
| Session.JunosModule.Ping | ansible_collections/juniper/device/plugins/module_utils/juniper_junos_common.py:1717-1858 | ping reaches `PingStep` and returns its results |
| Session.JunosModule.PingReplied | ansible_collections/juniper/device/plugins/module_utils/juniper_junos_common.py:1769-1858 | the reply to the ping RPC: a library error, or the verdict on it |
| Session.JunosModule.SaveTextOutput | ansible_collections/juniper/device/plugins/module_utils/juniper_junos_common.py:1860-1924 | save_text_output writes where `OutputPlanFor` says, remembers the first `dest`, and fails on a write error |
| Session.JunosModule.RemoteMd5 | ansible_collections/juniper/device/plugins/module_utils/juniper_junos_common.py:1997-2014 | remote_md5 queries the device once and returns `RemoteChecksum` |
| Session.JunosModule.ChecksumsBefore | ansible_collections/juniper/device/plugins/module_utils/juniper_junos_common.py:2022-2024 | both checksums before a transfer, the source first |
| Session.JunosModule.CopyVerified | ansible_collections/juniper/device/plugins/module_utils/juniper_junos_common.py:2016-2221 | the four verified transfers reach `CopyStep` and return its result |
| Session.JunosModule.TransferChecked | ansible_collections/juniper/device/plugins/module_utils/juniper_junos_common.py:2026-2050 | the transfer and the check of the target reach `TransferStep` |
| Session.JunosModule.ChecksumAfter | ansible_collections/juniper/device/plugins/module_utils/juniper_junos_common.py:2036 | the target's checksum after a transfer; the device is asked again when pushing |
| Session.JunosModule.CopyUnverified | ansible_collections/juniper/device/plugins/module_utils/juniper_junos_common.py:2056-2243 | the four unverified transfers reach `PlainCopyStep` |
| RpcModule.FirstInvalidIndex | ansible_collections/juniper/device/plugins/modules/rpc.py:432-438 | the first format not in text/xml/json, with all earlier ones valid |
| RpcModule.CheckOptions | ansible_collections/juniper/device/plugins/modules/rpc.py:418-487 | the option checks with their loop over the formats return exactly `Checked` |
| RpcModule.CheckedAccepts | ansible_collections/juniper/device/plugins/modules/rpc.py:418-487 | options are accepted iff rpcs is given, ignore_warning parses, every format is valid, and there is one format or one per RPC. kwargs and attrs, when given, must have one per RPC, and a filter needs a single get-config. The plan broadcasts one format and fills absent kwargs/attrs with None, and a refused format is the first invalid one |
| RpcModule.BuildRequest | ansible_collections/juniper/device/plugins/modules/rpc.py:505-555 | building the request with the module's two loops returns exactly `Request` |
| RpcModule.ChildrenShape | ansible_collections/juniper/device/plugins/modules/rpc.py:542-549 | every kwargs key becomes one child, in order, named with dashes |
| RpcModule.AttributesKeepFormat | ansible_collections/juniper/device/plugins/modules/rpc.py:550-555 | attrs that do not name "format" keep the request's format attribute |
| RpcModule.RequestShape | ansible_collections/juniper/device/plugins/modules/rpc.py:492-555 | the request is named as given, has one dash-named child per kwarg in order, and keeps the format attribute unless attrs override it |
| RpcModule.Finish | ansible_collections/juniper/device/plugins/modules/rpc.py:595-637 | an RPC whose response is accepted is reported not failed and saved once under its name and format, and its other fields are kept |
| RpcModule.GetConfigStep | ansible_collections/juniper/device/plugins/modules/rpc.py:509-539 | the get-config step issues one call and reports a result consistent with its item |
| RpcModule.SendStep | ansible_collections/juniper/device/plugins/modules/rpc.py:541-578 | the step for other RPCs reports a result consistent with its item. A forwarded error naming ConnectError but not RpcError crashes with the TypeError of the bare raise |
| RpcModule.RunOne | ansible_collections/juniper/device/plugins/modules/rpc.py:490-637 | one pass of the loop reports a result consistent with its item |
| RpcModule.Execute | ansible_collections/juniper/device/plugins/modules/rpc.py:490-637 | one pass with the module's loops equals `RunOne` |
| RpcModule.LocalErrorReported | ansible_collections/juniper/device/plugins/modules/rpc.py:560-593 | a ConnectError or RpcError from a local RPC records a failed "Unable to execute" result and the loop goes on; any other error ends the module |
| RpcModule.SwallowedErrorReusesResponse | ansible_collections/juniper/device/plugins/modules/rpc.py:563-574 | a delegated error naming neither RpcError nor ConnectError is swallowed: the previous response is reused, or with none the module crashes with NameError |
| RpcModule.ForwardedErrorConverted | ansible_collections/juniper/device/plugins/modules/rpc.py:563-593 | a forwarded error naming RpcError gives a failed "Unable to execute" result with the text of a bare RpcError, and the loop goes on. One naming ConnectError but not RpcError crashes the module with TypeError, because ConnectError requires a device argument |
| RpcModule.GetConfigOptions | ansible_collections/juniper/device/plugins/modules/rpc.py:509-538 | get-config passes the filter, attrs with "format" set to the requested format and every other attr unchanged, and the result's attrs are those options |
| RpcModule.SuccessNotFlagged | ansible_collections/juniper/device/plugins/modules/rpc.py:539 | the success messages do not start like failure messages |
| RpcModule.FinishExplained | ansible_collections/juniper/device/plugins/modules/rpc.py:595-637 | a finished RPC that failed says why in its message |
| RpcModule.UnableExplained | ansible_collections/juniper/device/plugins/modules/rpc.py:588-591 | the "Unable to execute" message is flagged as a failure message |
| RpcModule.GetConfigExplained | ansible_collections/juniper/device/plugins/modules/rpc.py:509-637 | a failed get-config result says why |
| RpcModule.SendExplained | ansible_collections/juniper/device/plugins/modules/rpc.py:541-637 | a failed RPC result says why |
| RpcModule.FailedResultExplained | ansible_collections/juniper/device/plugins/modules/rpc.py:579-637 | a result is failed iff its message starts with "Unable to execute" or "Unexpected" |
| RpcModule.OverallFailed | ansible_collections/juniper/device/plugins/modules/rpc.py:644-648 | the loop with break is failed iff every result failed |
| RpcModule.RunRpcs | ansible_collections/juniper/device/plugins/modules/rpc.py:418-649 | main with its loops returns exactly `RpcMain` |
| RpcModule.SaveKeys | ansible_collections/juniper/device/plugins/modules/rpc.py:633 | lists the (name, format) of each saved output, in order |
| RpcModule.AdvanceTracks | ansible_collections/juniper/device/plugins/modules/rpc.py:490-637 | one pass keeps the results in step with the plan |
| RpcModule.DispatchTracks | ansible_collections/juniper/device/plugins/modules/rpc.py:490-637 | the dispatch loop runs to the end of the plan with one result per RPC unless it crashes |
| RpcModule.MainRefusal | ansible_collections/juniper/device/plugins/modules/rpc.py:418-487 | a run is refused iff the option checks fail; with no RPCs the module exits failed with no results |
| RpcModule.MainTracks | ansible_collections/juniper/device/plugins/modules/rpc.py:489-637 | a checked run's loop tracks the plan to its end |
| RpcModule.MainOutcome | ansible_collections/juniper/device/plugins/modules/rpc.py:489-649 | a checked run that does not crash reports one result per RPC, in order, with the dashed name and its format, never changed. Exactly the successful results are saved, one call is made per RPC, and one RPC reports its own result. Otherwise failed iff every result failed |
| SoftwareInstall.RestOfLine | ansible_collections/juniper/device/plugins/modules/software.py:441 | finds the end of the line, as `.` stops at a newline |
| SoftwareInstall.LastDigit | ansible_collections/juniper/device/plugins/modules/software.py:441 | finds the last digit of a stretch, as the greedy `.*\d` does |
| SoftwareInstall.FirstVersionAt | ansible_collections/juniper/device/plugins/modules/software.py:441 | finds the first position where `-\d\d\.` starts a match, with none before it |
| SoftwareInstall.FirstVersionAtIs | ansible_collections/juniper/device/plugins/modules/software.py:441 | a position where the pattern matches, with no match before it, is where the search finds its match, so together with the search's own contract the first match is unique |
| SoftwareInstall.VersionSearch | ansible_collections/juniper/device/plugins/modules/software.py:441-443 | a match exists iff the pattern occurs; the version starts with two digits and a dot, ends with a digit and has no newline |
| SoftwareInstall.VersionSearchPosition | ansible_collections/juniper/device/plugins/modules/software.py:441-443 | the version is the text after the first matching '-' up to the last digit on that line |
| SoftwareInstall.ScanPrefixesSearches | ansible_collections/juniper/device/plugins/modules/software.py:436-444 | scanning the prefixes searches the name iff some prefix starts it |
| SoftwareInstall.ParseVersionNeedsPrefix | ansible_collections/juniper/device/plugins/modules/software.py:426-444 | parse_version_from_filename is None unless the name starts with one of the eight package prefixes, and is then the regex search |
| SoftwareInstall.AfterLastSlash | ansible_collections/juniper/device/plugins/modules/software.py:552 | finds the index just past the last '/' |
| SoftwareInstall.SplitPathShape | ansible_collections/juniper/device/plugins/modules/software.py:552 | `os.path.split`: the tail has no '/' and ends the path, is empty iff the path is empty or ends in '/', and the head is a prefix of the path |
| SoftwareInstall.FirstNotFile | ansible_collections/juniper/device/plugins/modules/software.py:597-602 | the first pkg_set entry that is not a file, with all earlier ones files |
| SoftwareInstall.AbsPaths | ansible_collections/juniper/device/plugins/modules/software.py:596 | every pkg_set entry made absolute, in order |
| SoftwareInstall.CheckLocal | ansible_collections/juniper/device/plugins/modules/software.py:573-613 | the checks of a package that is not a URL return exactly `LocalLocated` |
| SoftwareInstall.Reconcile | ansible_collections/juniper/device/plugins/modules/software.py:545-621 | the option reconciliation returns exactly `Reconciled` |
| SoftwareInstall.UrlRefusals | ansible_collections/juniper/device/plugins/modules/software.py:561-571 | a URL with local_package, or with no_copy, is refused with that URL in the message |
| SoftwareInstall.LocalLocatedOptions | ansible_collections/juniper/device/plugins/modules/software.py:573-613 | a local package has no URL, and no_copy is set iff given or remote_package comes without local_package |
| SoftwareInstall.ReconciledOptions | ansible_collections/juniper/device/plugins/modules/software.py:545-618 | no_copy is set iff it was given, or a non-URL remote_package comes without local_package. cleanfs is kept only without no_copy. The remote dir is /var/tmp, the URL's none, or the remote path's head |
| SoftwareInstall.ReconciledFiles | ansible_collections/juniper/device/plugins/modules/software.py:573-613 | the remote file name is the remote path's, or the local one when it is empty, and equals the local one whenever that exists. Without no_copy, every package to copy is a file |
| SoftwareInstall.ReconciledTarget | ansible_collections/juniper/device/plugins/modules/software.py:620-621 | the target version is the given one; otherwise it is parsed from the remote file name, unless a pkg_set is given |
| SoftwareInstall.DirectoryOnlyCrashes | ansible_collections/juniper/device/plugins/modules/software.py:604-621 | a remote_package that names only a directory leaves the file name None, and parsing its version raises AttributeError |
| SoftwareInstall.SameLineAsWrittenNamesVersion | ansible_collections/juniper/device/plugins/modules/software.py:669-672 | as written, the "same as Targeted version" line puts the current version where the RE name belongs |
| SoftwareInstall.SameLineAsWrittenExample | ansible_collections/juniper/device/plugins/modules/software.py:669-672 | as written, the line for RE "re0" on 20.1R1.5 does not start "Current version on re0" |
| SoftwareInstall.SameLineNamesRe | ansible_collections/juniper/device/plugins/modules/software.py:669-672 | the intended line names the RE, then its version, and ends with a newline |
| SoftwareInstall.SameLinesEmpty | ansible_collections/juniper/device/plugins/modules/software.py:642-672 | no line is appended iff every routing engine runs another version than the target |
| SoftwareInstall.SameLinesStep | ansible_collections/juniper/device/plugins/modules/software.py:642-672 | one more routing engine appends the as-written line, with version and name swapped, iff it runs the target |
| SoftwareInstall.SomeReDiffersStep | ansible_collections/juniper/device/plugins/modules/software.py:660-667 | one more routing engine counts iff it does not run the target |
| SoftwareInstall.ScanRoutingEngines | ansible_collections/juniper/device/plugins/modules/software.py:640-672 | the all_re loop sets changed iff some RE differs from the target, and collects the as-written line for each RE that matches |
| SoftwareInstall.DecideChanged | ansible_collections/juniper/device/plugins/modules/software.py:639-707 | changed iff there is no target, or (all_re) some RE differs, or (otherwise) this RE's version differs. Each matching RE adds its line as written |
| SoftwareInstall.StrList | ansible_collections/juniper/device/plugins/modules/software.py:719 | pkg_set as a Python list of the same length |
| SoftwareInstall.CopyOptionsLookup | ansible_collections/juniper/device/plugins/modules/software.py:733-736 | copying the remaining options sets exactly each option whose value is not None, over the values already there |
| SoftwareInstall.CopyRemainingOptions | ansible_collections/juniper/device/plugins/modules/software.py:733-736 | the loop over the option names equals `CopyOptions` |
| SoftwareInstall.BaseInstallParams | ansible_collections/juniper/device/plugins/modules/software.py:713-732 | the assignments of install_params equal `BaseParams` |
| SoftwareInstall.BuildInstallParams | ansible_collections/juniper/device/plugins/modules/software.py:713-738 | the whole install_params construction equals `InstallParams` |
| SoftwareInstall.InstallParamsOverrides | ansible_collections/juniper/device/plugins/modules/software.py:713-738 | a key in kwargs wins. Otherwise a copied option wins, and otherwise the base assignment is kept |
| SoftwareInstall.PoppedNotCopied | ansible_collections/juniper/device/plugins/modules/software.py:532-543 | the options main pops are never copied again |
| SoftwareInstall.BaseKeepsPackage | ansible_collections/juniper/device/plugins/modules/software.py:713-732 | the later assignments do not touch package, pkg_set or remote_path |
| SoftwareInstall.InstallParamsKeepPackage | ansible_collections/juniper/device/plugins/modules/software.py:713-738 | package, pkg_set and remote_path survive the option copy unless kwargs names them |
| SoftwareInstall.PackageParamsPrecedence | ansible_collections/juniper/device/plugins/modules/software.py:713-723 | package is the URL, else local_package, else pkg_set (under "pkg_set"), else the remote file name. remote_path is set iff the remote dir is known |
| SoftwareInstall.InstallPackagePrecedence | ansible_collections/juniper/device/plugins/modules/software.py:713-738 | the same precedence holds in the final install_params when kwargs does not name those keys |
| SoftwareInstall.RebootTimeout | ansible_collections/juniper/device/plugins/modules/software.py:810-815 | the lowered timeout is at most 5 and at most the old one, and changes only a timeout above 5 |
| SoftwareInstall.RebootLocal | ansible_collections/juniper/device/plugins/modules/software.py:805-838 | the device timeout after the reboot attempt is the one before, whether the reboot returned or raised. The outcome is the answer given to the lowered timeout |
| Pmtud.MaxRangeChoicesArePowers | ansible_collections/juniper/device/plugins/modules/pmtud.py:288-293 | an accepted max_range is 0 or a power of two from 2 to 65536, and every such value is accepted |
| Pmtud.Pow2 | ansible_collections/juniper/device/plugins/modules/pmtud.py:288-293 | the powers of two the max_range choices list are positive |
| Pmtud.Clamp | ansible_collections/juniper/device/plugins/modules/pmtud.py:379-382 | the clamped test size is in [68, max_size], and equal to the test size when that is already in range |
| Pmtud.Halved | ansible_collections/juniper/device/plugins/modules/pmtud.py:384 | the halved step is smaller than any step of at least 1 and never negative |
| Pmtud.HalvedPower | ansible_collections/juniper/device/plugins/modules/pmtud.py:384 | halving a power of two of at least 2 gives a power of two |
| Pmtud.Iteration | ansible_collections/juniper/device/plugins/modules/pmtud.py:379-407 | one pass pings the clamped size minus 28; it stops or continues with a strictly smaller step |
| Pmtud.SearchLoop | ansible_collections/juniper/device/plugins/modules/pmtud.py:372-407 | the `while True` loop with clamping, halving and its two breaks returns exactly `Search`; it fails iff no MTU was found |
| Pmtud.SearchPings | ansible_collections/juniper/device/plugins/modules/pmtud.py:385-391 | the search keeps the earlier pings, and every new payload lies between 40 and max_size - 28 |
| Pmtud.SearchReportsProbe | ansible_collections/juniper/device/plugins/modules/pmtud.py:393-405 | the reported MTU is the starting one, or a size in [68, max_size] that was pinged with loss below 100 |
| Pmtud.SearchEndsOnlyWhenEnded | ansible_collections/juniper/device/plugins/modules/pmtud.py:386-391 | the search reports an ended ping iff its last ping ended |
| Pmtud.SearchZeroIff | ansible_collections/juniper/device/plugins/modules/pmtud.py:393-405 | the MTU stays 0 iff it started at 0 and no search ping got through |
| Pmtud.SearchProbeCount | ansible_collections/juniper/device/plugins/modules/pmtud.py:384-407 | the number of pings is one with step 0, and otherwise at most one more than the step's base-2 logarithm |
| Pmtud.SearchStaysAboveMinimum | ansible_collections/juniper/device/plugins/modules/pmtud.py:374-385 | from a power-of-two step, no payload drops below `min_test_size - 28` |
| Pmtud.ClampKeepsWindow | ansible_collections/juniper/device/plugins/modules/pmtud.py:379-382 | clamping keeps the searched window |
| Pmtud.SearchFindsTarget | ansible_collections/juniper/device/plugins/modules/pmtud.py:372-407 | with a monotone path, the search finds the lesser of the path MTU and max_size |
| Pmtud.RunPmtud | ansible_collections/juniper/device/plugins/modules/pmtud.py:312-420 | main returns exactly `Discover`, whose failure message quotes min_test_size as computed |
| Pmtud.DiscoverChecks | ansible_collections/juniper/device/plugins/modules/pmtud.py:313-369 | a bad max_range or max_size is refused before any ping; the first ping's payload is 40, and loss 100 exits early with failed set |
| Pmtud.DiscoverProbeCount | ansible_collections/juniper/device/plugins/modules/pmtud.py:360-407 | at most 18 pings are made |
| Pmtud.DiscoverPingsInRange | ansible_collections/juniper/device/plugins/modules/pmtud.py:372-391 | every search ping lies between `min_test_size - 28` and max_size - 28 |
| Pmtud.DiscoverReportsProbedSize | ansible_collections/juniper/device/plugins/modules/pmtud.py:393-420 | a reported MTU lies in [smallest size tested, max_size] and was pinged with loss below 100, where the smallest size tested is min_test_size, or max_size when max_range is 0 |
| Pmtud.DiscoverFailure | ansible_collections/juniper/device/plugins/modules/pmtud.py:409-416 | failure reports MTU 0. After a full search, the module fails iff no search ping got through, and an early exit pinged only 40 |
| Pmtud.DiscoverMonotone | ansible_collections/juniper/device/plugins/modules/pmtud.py:58-63 | with a monotone path, the result is min(path MTU, max_size), or failure when that is below the smallest size tested, or the connectivity failure when the path is below 68. The failure message quotes min_test_size as written |
| Pmtud.MonotoneSearch | ansible_collections/juniper/device/plugins/modules/pmtud.py:209-214 | with a monotone path, a full search ends with min(path MTU, max_size) |
| Pmtud.MinTestSizeAsWritten | ansible_collections/juniper/device/plugins/modules/pmtud.py:374-376 | as written, max_range 0 gives min_test_size max_size + 1, yet max_size is pinged and reported |
| Pmtud.MinTestSizeAsWrittenMessage | ansible_collections/juniper/device/plugins/modules/pmtud.py:409-416 | as written, with max_range 0 and a path narrower than max_size, the failure quotes a minimum tested size of max_size + 1, a size never pinged |
| Session.Device.constructor | ansible_collections/juniper/device/plugins/module_utils/juniper_junos_common.py:1187 | a new Device holds the library's default RPC timeout of 30 seconds until open() sets the configured one |
| ConfigOps.SpaceIntTemplateRaises | ansible_collections/juniper/device/plugins/module_utils/juniper_junos_common.py:1378-1380 | any template whose first conversion is a space-flagged `%i` raises TypeError when given a str |

## Left out

- The device library, ncclient and the broker of delegated connections are not modelled. Every call into them is an outcome, reply or function parameter. On a delegated connection, each configuration operation is one `Forwarded` call whose outcome is given.
- Logging and PyEZ's software-compatibility checks are not modelled. `exit_json` and `fail_json` ignore a `TimeoutExpiredError` from closing the device, and the model does the same. The `TimeoutExpiredError` handlers inside `software.py`'s reboot block (`software.py:873`, `software.py:886`) belong to the reboot handlers left out below.
- The MD5 digest and file reads are abstract. `digest` is a parameter, and a file is its bytes, or the error opening it raised.
- `ping` computes the loss with `round(float(...))`, which is floating point. The model takes the rounded integer loss from a parameter (`lossOf`).
- The XML, `jxmlease` and JSON renderings of replies are opaque strings. A get-config reply is an element (tag, text and those renderings) or other data.
- `safe_eval`, `check_type_dict`, Ansible's `boolean()`, `argparse`, `os.path.abspath`, `os.path.normpath`, `os.path.isfile` and `urlparse` are parameters. `os.path.split` is modelled (`SoftwareInstall.SplitPathShape`).
- Regular expressions: `\d` is read as the ASCII digits only.
- Python's `int()` on a string is read as surrounding ASCII whitespace, an optional sign, and ASCII digits with single underscores between them (`Text.ParseInt`). The non-ASCII decimal digits and Unicode whitespace that Python's `int()` and `str.strip()` also accept are not modelled; such a port, console port or rollback id is refused where Python would accept it.
- Ansible's `mutually_exclusive` check (`issu` with `nssu`, `software.py:525`) is not modelled. The `required_one_of` check on the package options (`software.py:527`) is modelled: `SoftwareInstall.Locate` refuses with Ansible's message when none is given. Other argument-spec validation is taken as done: the model receives the options as Ansible hands them over.
- `software.py`: the calls that install the package and the sleep before a reboot are not modelled. Neither are the handlers that turn the reboot's exceptions into messages (`software.py:855-891`). The reboot is one answer per timeout, and the model covers the timeout handling around it and how the block ends.
- SoftwareInstall.BuildInstallParams: the option names copied into `install_params` are a parameter, not read from the argument spec.
- `pmtud.py`: the result keys `dest`, `dest_ip`, `source_ip` and `o_ping_params`, and the ping parameters other than the payload size, are not modelled. Neither is the conversion of the size to a string. The ping is a function from payload size to a probe result.
- `rpc.py`: a failed `save_text_output` ends the module through `fail_json`. The dispatch model records the saves and leaves that failure to `Session.JunosModule.SaveTextOutput`.
- Reading a `dest` file back, file permissions and concurrent runs are not modelled.

## Findings

| source | as written | input that shows it | evidently intended | confidence | as-written member | corrected member |
|---|---|---|---|---|---|---|
| ansible_collections/juniper/device/plugins/module_utils/juniper_junos_common.py:1376-1388 | the "is not a valid database/format" messages use `"% is ..."`, which Python reads as a space-flagged `%i` conversion. Given the value (a str), it raises TypeError, so an invalid database or format crashes the Ansible task before `fail_json` | `database="running"` | report the value as invalid and list the choices through `fail_json` | not executed | ConfigOps.RunningDatabaseCrashes | ConfigOps.DatabaseMessage |
| ansible_collections/juniper/device/plugins/modules/software.py:669-672 | the "Current version on %s: %s same as Targeted version" line gets `(current_version, re)`, so it names the version where the routing engine belongs, and the engine where its version belongs (also at lines 698-704) | re `re0` running the target `20.1R1.5` | "Current version on re0: 20.1R1.5 same as Targeted version: 20.1R1.5." | not executed | SoftwareInstall.SameLineAsWrittenExample | SoftwareInstall.SameLineNamesRe |
| ansible_collections/juniper/device/plugins/modules/pmtud.py:374-376 | with `max_range` 0, `min_test_size` is `max_size + 1`, yet the search pings `max_size` itself and reports it, so the reported MTU lies below the stated minimum. A failure message would also quote `max_size + 1` as the minimum | `max_size=1500`, `max_range=0`, a path MTU of 1500 or more | the smallest size tested, `max_size`, as the minimum | not executed | Pmtud.MinTestSizeAsWrittenMessage | Pmtud.DiscoverReportsProbedSize |
