# iOS automation control panel, `.env` reader and logger — Dafny model

This project models the deterministic core of a Windows toolkit for driving iOS
devices through Appium. The core has three parts:

- **The control panel** (`e2eios/scripts/control_panel.py`, class `ControlPanel`).
  - It asks the external device-bridge tool (`ios list`) for the attached devices and parses its output in three tiers.
  - It probes the Appium server over HTTP (`GET <url>/status`) and the WebDriverAgent port over TCP.
  - It reduces the probe results to `is_connected` and `services_running`, with a status label for each.
  - It shows the device UDID, adopting the first device when none is configured.
  - It writes colour-tagged lines to a console, choosing the tag from keywords in the message.
- **The `.env` reader** (`e2eios/utils/env.py`, `load_env`): `KEY=VALUE` lines in, a dictionary out.
- **The logger** (`e2eios/utils/logger.py`, class `AppiumLogger`).
  - It prints fixed-layout lines: icon, time, level, component, message and an optional `k=v` context.
  - It has helpers that choose the level from a boolean or an HTTP status code.

Its modules are:

- `Text` (`text.dfy`): the Python string operations the code relies on. These are `str.strip()` over the full `isspace` set, `strip(c)`, `startswith`, the `in` substring test, `split` with a one-character separator, `join` with any separator text, `splitlines()`, ASCII `lower()` and `str(int)`.
- `Wrappers` (`wrappers.dfy`): `Option`.
- `Devices` (`devices.dfy`): `list_devices` and `run_go_ios_command`. The output examples for the three tiers are in `device_examples.dfy`.
- `Env` (`env.dfy`): `load_env`.
- `Logger` (`logger.dfy`): `AppiumLogger`, `get_logger` and the quick `log_*` functions.
- `Panel` (`control_panel.dfy`): everything else in `ControlPanel`.

Everything the code gets from the outside world is a parameter:

- **A run of the device-bridge tool** (`CommandRun`): its return code and stdout, or an exception.
- **`json.loads` followed by `.get("deviceList", [])`**: a `Decoder` function giving either a decoding error or an optional device list.
- **`requests.get` and `socket.connect_ex`**: functions from the URL or port text to what happened.
- **The `.env` file**: its text, or `None` when it does not exist.
- **The clock**: the `%H:%M:%S` text of the time, and the session id text.
- **The float formatting** `f"{x:.2f}"` / `f"{x:.3f}"`: a function from `real` to text.

Behaviour of the code worth noting:

- **The `{"deviceList"` test**: it is made on the stripped line. The `{"level":` noise test is made on the line as it stands.
- **Quotes**: `.env` values lose every leading and trailing `"`, then every leading and trailing `'`. The quote characters need not match.
- **Comments**: a `#` comment is recognised after stripping the line; lines without `=` are skipped too.
- **No UDID configured**: there is no separate "no identifier configured" connection state. `is_connected` is false and only the device label (`⚠️ UDID Not Configured`) tells the two cases apart.

## Model

| member | source | states |
|---|---|---|
| Devices.Listed | e2eios/scripts/control_panel.py:210-235 | The three tiers of `list_devices`. A failed run, or one whose stdout is blank, gives `[]`. Otherwise the first line that starts with `{"deviceList"` after stripping is decoded: a decoded line gives its `deviceList` field, or `[]` when it has none; a line that fails to decode gives every non-blank stripped line, unfiltered. With no such line, the result is the non-blank stripped lines whose raw text does not start with `{"level":`. |
| Devices.FailedRunListsNothing | e2eios/scripts/control_panel.py:201-213 | A run that raised, or exited with a non-zero code, is reported as a failure, a raised one with empty stdout, and `list_devices` then returns `[]`. |
| Devices.ZeroExitSucceeds | e2eios/scripts/control_panel.py:204-206 | An exit code of 0 is reported as success together with the stdout the tool printed. |
| Devices.ListDevices | e2eios/scripts/control_panel.py:210-235 | The loop with `break` that finds the JSON line, and the comprehensions, compute exactly `Listed`. |
| Devices.FirstDeviceListLine | e2eios/scripts/control_panel.py:218-222 | The line the loop stops at is a deviceList line and no earlier line is one; when it reaches the end, no line is one. |
| Devices.KeptAppend | e2eios/scripts/control_panel.py:229 | Filtering keeps the order of the lines: filtering a concatenation concatenates the filtered parts. |
| Devices.KeptOne | e2eios/scripts/control_panel.py:229 | One line contributes its stripped text when kept and nothing otherwise. |
| Devices.KeptTrimmed | e2eios/scripts/control_panel.py:229-234 | Every entry of a fallback result is non-empty and already whitespace-trimmed. |
| Devices.KeptMembers | e2eios/scripts/control_panel.py:229-234 | An entry is in a fallback result exactly when some kept line strips to it. |
| Devices.NoiseLineDropped | e2eios/scripts/control_panel.py:229 | A line whose raw text starts with `{"level":` is dropped. |
| Devices.IndentedLineKept | e2eios/scripts/control_panel.py:229 | The noise test is on the raw line, so an indented non-blank line, an indented `{"level":` line included, is kept. |
| DeviceExamples.JsonExample | e2eios/scripts/control_panel.py:217-226 | For stdout `{"deviceList":["AAA","BBB"]}\n`, decoded to that list, the result is `["AAA","BBB"]`. |
| DeviceExamples.NoiseExample | e2eios/scripts/control_panel.py:227-230 | For stdout `{"level":"warn"}\nDEVICE123\n` the result is `["DEVICE123"]`, whatever the decoder. |
| DeviceExamples.PlainTextExample | e2eios/scripts/control_panel.py:227-230 | For stdout `not json at all\n` the result is `["not json at all"]`. |
| Env.LoadEnv | e2eios/utils/env.py:3-14 | A missing file gives the empty map. Otherwise the loop over `splitlines()` builds exactly the left-to-right fold `EnvFromFile`. |
| Env.EqualsAt | e2eios/utils/env.py:12 | An entry line is split at its first `=`: nothing before that point is an `=`. |
| Env.SkippedLineIgnored | e2eios/utils/env.py:9-11 | A line that strips to nothing, starts with `#` after stripping, or holds no `=` changes nothing, wherever it stands in the file. |
| Env.LastEntryWins | e2eios/utils/env.py:8-13 | When several entries name a key, the value of the last one is stored. |
| Env.KeysFromEntries | e2eios/utils/env.py:10-13 | Every key in the result is the key of some entry line. |
| Env.EntriesGiveKeys | e2eios/utils/env.py:8-13 | The key of an entry line is in the result, whatever follows it. |
| Env.DefinedIff | e2eios/utils/env.py:8-13 | A key is defined exactly when some entry line names it. |
| Env.AtMostOneNamePerEntry | e2eios/utils/env.py:10-13 | There are never more keys than entry lines. |
| Env.KeyShape | e2eios/utils/env.py:12-13 | Keys are whitespace-trimmed and hold no `=`. |
| Env.ValueShape | e2eios/utils/env.py:13 | After whitespace, then `"`, then `'` stripping, a value neither starts nor ends with `'`. |
| Env.ValuesUnquoted | e2eios/utils/env.py:8-13 | Every value in the result neither starts nor ends with `'`. |
| Env.EntryRoundTrip | e2eios/utils/env.py:9-13 | A line `KEY=VALUE` is read back as that key and that value, even when the value holds more `=` signs. This holds for a trimmed key that holds no `=` and does not open a comment, and a value with no whitespace or quote at its ends. |
| Env.EntryFileRoundTrip | e2eios/utils/env.py:3-14 | A one-line file `KEY=VALUE` of that kind loads as the map from that key to that value. |
| Logger.IconTable | e2eios/utils/logger.py:17-24 | The six levels have the icons of `LEVELS`; every other level gets `📋`. |
| Logger.FormatMessage | e2eios/utils/logger.py:41-54 | The line is exactly `icon + " [" + ts + "] [" + level + "] " + component + ": " + message`. A `None` or empty context adds nothing; any other adds `" | "` and the context text. |
| Logger.Entries | e2eios/utils/logger.py:51 | One `k=v` text per context entry, in insertion order. |
| Logger.ContextOne | e2eios/utils/logger.py:51 | A one-entry context reads `k=v`. |
| Logger.ContextAppend | e2eios/utils/logger.py:50-52 | Insertion order is kept: adding an entry to a non-empty context appends `, k=v`. |
| Logger.ContextTwo | e2eios/utils/logger.py:51 | A two-entry context reads `k1=v1, k2=v2`. |
| Logger.ApiCallLevel | e2eios/utils/logger.py:153-158 | SUCCESS exactly for 200–299, WARNING exactly for 400–499, ERROR exactly for every other code. |
| Logger.ApiCallContext | e2eios/utils/logger.py:145-151 | The context holds `api`, `method` and `status` in that order, then `response_time` (the formatted time and `s`) exactly when a non-zero time is given. |
| Logger.ElementSearchContext | e2eios/utils/logger.py:105-108 | The context reads `selector=<type>='<value>', attempts=<n>`. |
| Logger.ActionContext | e2eios/utils/logger.py:117-119 | The context always starts with `target`; `duration` (the formatted time and `s`) follows exactly when a non-zero duration is given. |
| Logger.AppiumLogger.constructor | e2eios/utils/logger.py:36-39 | Component, debug switch and session id are set once; nothing has been printed. |
| Logger.AppiumLogger.SafePrint | e2eios/utils/logger.py:56-63 | The line is appended to standard output. |
| Logger.AppiumLogger.Debug | e2eios/utils/logger.py:65-68 | A DEBUG line is printed when debugging is enabled and nothing otherwise. |
| Logger.AppiumLogger.Info | e2eios/utils/logger.py:70-72 | An INFO line is always printed. |
| Logger.AppiumLogger.Success | e2eios/utils/logger.py:74-76 | A SUCCESS line is always printed. |
| Logger.AppiumLogger.Warning | e2eios/utils/logger.py:78-80 | A WARNING line is always printed. |
| Logger.AppiumLogger.Error | e2eios/utils/logger.py:82-92 | An ERROR line is printed. When `exc_info` is set and an exception is being handled, the traceback follows behind `🔍 Exception details: `. |
| Logger.AppiumLogger.Critical | e2eios/utils/logger.py:94-101 | A CRITICAL line is printed. When `exc_info` is set and an exception is being handled, the traceback follows behind `🚨 Critical exception: `. |
| Logger.AppiumLogger.LogElementSearch | e2eios/utils/logger.py:103-113 | A found element gives a DEBUG line, printed only when debugging is enabled; a missing element gives a WARNING line. Both carry the selector and attempts context. |
| Logger.AppiumLogger.LogAction | e2eios/utils/logger.py:115-124 | Success gives SUCCESS `Action '<a>' completed`, failure gives ERROR `Action '<a>' failed`, both with the action context. |
| Logger.AppiumLogger.LogApiCall | e2eios/utils/logger.py:143-158 | One line at the level of `ApiCallLevel`, with its message and the API context. |
| Logger.AppiumLogger.LogSessionStart | e2eios/utils/logger.py:126-130 | The session line with `session_id`, then one `Config: key = value` line per entry, in order. |
| Logger.AppiumLogger.LogSessionStats | e2eios/utils/logger.py:132-134 | One INFO line with the statistics as context. |
| Logger.AppiumLogger.LogScreenState | e2eios/utils/logger.py:136-141 | One INFO line with `screen`, and `elements` only when a non-empty list is given. |
| Logger.ConfigLines | e2eios/utils/logger.py:129-130 | One `Config: key = value` INFO line per configuration entry, in order. |
| Logger.ConfigLinesAppend | e2eios/utils/logger.py:129-130 | Logging one more entry extends the config lines at the end. |
| Logger.GetLogger | e2eios/utils/logger.py:160-162 | A fresh logger with the given component, debug switch and session id, which has printed nothing. |
| Logger.LogInfo | e2eios/utils/logger.py:165-168 | Exactly one INFO line; no keyword arguments means no context. |
| Logger.LogError | e2eios/utils/logger.py:170-173 | Exactly one ERROR line, and the traceback when asked for and present. |
| Logger.LogSuccess | e2eios/utils/logger.py:175-178 | Exactly one SUCCESS line. |
| Panel.CheckServiceStatus | e2eios/scripts/control_panel.py:237-243 | Running exactly when `GET <url>/status` answers 200; any other code or an exception means not running. |
| Panel.CheckPortOpen | e2eios/scripts/control_panel.py:245-254 | Open exactly when `connect_ex` returns 0; any other code or an exception means closed. |
| Panel.WdaPortShape | e2eios/scripts/control_panel.py:266 | The WDA port is the text after the last `:` of the URL, or the whole URL when it has no `:`. |
| Panel.WdaPortOf | e2eios/scripts/control_panel.py:266 | For `host:port` with no `:` in the port, the port is what is checked. |
| Panel.DefaultWdaPort | e2eios/scripts/control_panel.py:35 | With the default WDA URL the port checked is `8200`. |
| Panel.Setting | e2eios/scripts/control_panel.py:34-37 | `env.get(key, default)`: the file's value when present, else the default. |
| Panel.ClassifyPrecedence | e2eios/scripts/control_panel.py:189-194 | Success (`✅`, "successful", "ok") beats error (`❌`, "error", "failed"), which beats warning (`⚠️`, "warning", "timeout"). When nothing matches, the caller's tag is kept. |
| Panel.ClassifyIgnoresCase | e2eios/scripts/control_panel.py:189-194 | The classification of a message and of its lower-cased form agree. |
| Panel.OkInsideWordIsSuccess | e2eios/scripts/control_panel.py:189 | "ok" is matched inside words: `Error: Invoke-Item failed` is tagged success. |
| Panel.DeviceConnectedIff | e2eios/scripts/control_panel.py:276 | A device matches exactly when the UDID occurs at some position of its entry. |
| Panel.EmptyUdidMatchesAnyDevice | e2eios/scripts/control_panel.py:274-285 | The empty UDID occurs in any entry, which is why the empty case is decided before any device is compared. |
| Panel.ConfiguredUdidKept | e2eios/scripts/control_panel.py:164-166 | A configured UDID is displayed and never replaced. |
| Panel.AutoDetect | e2eios/scripts/control_panel.py:319-324 | Without a configured UDID, one is adopted exactly when the first device entry is non-empty, and then the label shows it. Otherwise the label shows `Unknown` or `Not configured`. |
| Panel.DeviceLinesLength | e2eios/scripts/control_panel.py:312-313 | One console call (two segments) per device. |
| Panel.DeviceLineAt | e2eios/scripts/control_panel.py:312-313 | The i-th device's `  - <device>` line is the i-th device line, in order. |
| Panel.RefreshKeepsConfiguredUdid | e2eios/scripts/control_panel.py:316-324 | A refresh that finds devices keeps and shows a configured UDID. |
| Panel.RefreshLogLength | e2eios/scripts/control_panel.py:307-324 | A refresh that finds devices writes the refresh line, the count line, one line per device and, when it adopts a UDID, the adoption line. |
| Panel.ControlPanel.constructor | e2eios/scripts/control_panel.py:26-47 | The settings come from the `.env` file, with their defaults. Both booleans start false and the labels start at their initial texts. The UDID label is set once and the two welcome lines are logged. |
| Panel.ControlPanel.LogConsole | e2eios/scripts/control_panel.py:181-199 | The `[time] ` segment in the `timestamp` tag, then the message and a newline in the classified tag. |
| Panel.ControlPanel.ClearConsole | e2eios/scripts/control_panel.py:176-179 | The console holds only the `Console cleared` line. |
| Panel.ControlPanel.UpdateUdidDisplay | e2eios/scripts/control_panel.py:162-174 | The UDID label is set as `UdidShown` says; nothing else changes. |
| Panel.ControlPanel.CheckDevice | e2eios/scripts/control_panel.py:273-285 | `is_connected` holds exactly when a UDID is configured and occurs in a listed device. The label says connected, not connected, or not configured. |
| Panel.ControlPanel.UpdateStatusDisplay | e2eios/scripts/control_panel.py:256-288 | The Appium and WDA labels follow their probes, and the device state follows `CheckDevice`. `services_running` holds exactly when both probes succeed, for all four combinations. The UDID is unchanged. |
| Panel.ControlPanel.LogDevices | e2eios/scripts/control_panel.py:312-313 | The loop appends one `  - <device>` line per device, in order. |
| Panel.ControlPanel.AdoptFirstDevice | e2eios/scripts/control_panel.py:319-324 | The UDID becomes `AdoptedUdid`. An adoption sets the label and logs the line saying so. |
| Panel.ControlPanel.ReportDevices | e2eios/scripts/control_panel.py:310-324 | When devices are found: the count line, the device lines, the UDID label update and the auto-detect step. |
| Panel.ControlPanel.RefreshWith | e2eios/scripts/control_panel.py:307-327 | The whole refresh for a known device list. The no-devices branch logs that message and shows `No devices found`. |
| Panel.ControlPanel.RefreshDevices | e2eios/scripts/control_panel.py:304-330 | The refresh with the devices from `list_devices`. The UDID is `AdoptedUdid`, the label is `RefreshedDisplay`, the console gains `RefreshLog` and the status fields are unchanged. |

## Left out

- Threads and the monitor loop are not modelled: `start_status_monitor`, its `while True` with the 5 s / 10 s sleeps, and the daemon threads of `refresh_devices`. Operations are modelled as the sequential bodies those threads run.
- The Tk window, its buttons and key bindings (`setup_ui`, `run`) are not modelled. Labels are modelled only as the texts (and booleans) they are set from; colours are not modelled.
- `start_services`, `stop_services` and `test_connection` are not modelled. They run PowerShell, `taskkill` or HTTP requests and only choose the console message to show; they are outside the modelled core.
- Real I/O is not modelled: `subprocess.run`, `requests.get`, `socket.connect_ex`, `Path.exists`/`read_text` and `print` are parameters or, for output, a sequence of printed texts. File decoding errors from `read_text` are not modelled.
- `json.loads` is a parameter. A `deviceList` that is `null` or holds non-string elements is not modelled (the decoder yields a list of strings or no field).
- `int(port)` in `check_port_open` is not modelled separately: a port text it refuses raises, which is folded into the connect outcome.
- The clock: every `time.strftime` / `datetime.now` reading is a text parameter. The lines written by one panel or logger operation share one time text.
- Float formatting (`f"{x:.2f}s"`, `f"{x:.3f}s"`) is a function parameter; only the `s` suffix and the truth test (`None` and `0.0` are false) are modelled.
- `str.lower()` is modelled for ASCII letters only; Unicode case mapping beyond ASCII (for example the Kelvin sign lowering to `k`) is not modelled.
- Traceback text comes in as a parameter. The `UnicodeEncodeError` fallbacks of `_safe_print` and of `error`'s traceback print depend on the terminal encoding and are not modelled.
- `COLORS` is never used by the logger and is not modelled.
- Context values are modelled as already rendered with `str()`; integers are rendered with `IntToString`.
- `e2eios/scripts/test_connection.py` and `e2eios/scripts/open_settings.py` are not part of this model: they are network and WebDriver scripts over the logger.
