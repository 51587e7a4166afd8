/** The desktop control panel (scripts/control_panel.py, ControlPanel): it reads
    its settings from the `.env` file, asks the device bridge for the attached
    devices, probes the Appium server and the WebDriverAgent port, and shows the
    results as status labels, a UDID label and a colour-tagged console. The
    widgets are modelled by the texts they show; the tool run, the HTTP request,
    the socket connection and the clock are parameters. */
module Panel {
  import opened Wrappers
  import opened Text
  import opened Devices
  import opened Env

  /* ---------- Probes (check_service_status, check_port_open) ---------- */

  /** What `requests.get(url, timeout=5)` did: answered with a status code, or raised. */
  datatype HttpOutcome = Responded(statusCode: int) | RequestRaised

  /** What connecting to `127.0.0.1:int(port)` did: `connect_ex`'s code, or an
      exception (a port text int() refuses included). */
  datatype ConnectOutcome = ConnectCode(code: int) | ConnectRaised

  /** check_service_status: the service runs when GET `<url>/status` answers 200. */
  function CheckServiceStatus(url: string, get: string -> HttpOutcome): (running: bool)
    ensures running <==> get(url + "/status") == Responded(200)
  {
    match get(url + "/status")
    case Responded(code) => code == 200
    case RequestRaised => false
  }

  /** check_port_open: the port is open when connect_ex returns 0. */
  function CheckPortOpen(port: string, connect: string -> ConnectOutcome): (open: bool)
    ensures open <==> connect(port) == ConnectCode(0)
  {
    match connect(port)
    case ConnectCode(code) => code == 0
    case ConnectRaised => false
  }

  /** `wda_url.split(':')[-1]`: the port the WebDriverAgent check connects to. */
  function WdaPort(url: string): string {
    LastPart(url, ':')
  }

  /** The port is the text after the last `:`, or the whole URL when it has none. */
  lemma WdaPortShape(url: string)
    ensures var port := WdaPort(url);
      && |port| <= |url| && ':' !in port && port == url[|url| - |port|..]
      && (|port| == |url| || url[|url| - |port| - 1] == ':')
  {
    LastPartShape(url, ':');
  }

  /** The port written after the last colon of a URL is the port checked. */
  lemma WdaPortOf(host: string, port: string)
    requires ':' !in port
    ensures WdaPort(host + ":" + port) == port
  {
    LastPartAfter(host, ':', port);
  }

  /* ---------- Console classification (log_console) ---------- */

  const SuccessMark: string := "\U{2705}"
  const ErrorMark: string := "\U{274C}"
  const WarningMark: string := "\U{26A0}\U{FE0F}"

  /** The success test: the check mark, or "successful" or "ok" in any case. */
  predicate LooksSuccessful(message: string) {
    Contains(message, SuccessMark) || Contains(Lower(message), "successful") || Contains(Lower(message), "ok")
  }

  /** The error test: the cross mark, or "error" or "failed" in any case. */
  predicate LooksFailed(message: string) {
    Contains(message, ErrorMark) || Contains(Lower(message), "error") || Contains(Lower(message), "failed")
  }

  /** The warning test: the warning sign, or "warning" or "timeout" in any case. */
  predicate LooksWarning(message: string) {
    Contains(message, WarningMark) || Contains(Lower(message), "warning") || Contains(Lower(message), "timeout")
  }

  /** The tag log_console gives a message: the first test that matches, in the
      order success, error, warning; the caller's tag when none does. */
  function Classify(message: string, msgType: string): string {
    if LooksSuccessful(message) then "success"
    else if LooksFailed(message) then "error"
    else if LooksWarning(message) then "warning"
    else msgType
  }

  /** The tags in order of precedence: success over error over warning, and the
      caller's tag kept only when no test matches. */
  lemma ClassifyPrecedence(message: string, msgType: string)
    ensures var tag := Classify(message, msgType);
      && (LooksSuccessful(message) ==> tag == "success")
      && (!LooksSuccessful(message) && LooksFailed(message) ==> tag == "error")
      && (!LooksSuccessful(message) && !LooksFailed(message) && LooksWarning(message) ==> tag == "warning")
      && (!LooksSuccessful(message) && !LooksFailed(message) && !LooksWarning(message) ==> tag == msgType)
  {
  }

  /** The classification does not depend on letter case. */
  lemma ClassifyIgnoresCase(message: string, msgType: string)
    ensures Classify(Lower(message), msgType) == Classify(message, msgType)
  {
    LowerIdempotent(message);
    LowerContains(message, SuccessMark);
    LowerContains(message, ErrorMark);
    LowerContains(message, WarningMark);
  }

  /** The "ok" test looks for the two letters anywhere, so an error report that
      mentions a PowerShell `Invoke-` command is tagged as a success. */
  lemma OkInsideWordIsSuccess(message: string)
    requires message == "Error: Invoke-Item failed"
    ensures Classify(message, "info") == "success"
  {
    var lowered := Lower(message);
    assert lowered[10..][..2] == "ok";
    ContainsIff(lowered, "ok");
  }

  /** One log_console call: the time in the "timestamp" tag, then the message and
      a newline in the chosen tag. */
  datatype Segment = Segment(text: string, tag: string)

  function Logged(ts: string, message: string, msgType: string): seq<Segment> {
    [Segment("[" + ts + "] ", "timestamp"), Segment(message + "\n", Classify(message, msgType))]
  }

  /* ---------- Device matching and the UDID label ---------- */

  /** `any(udid in device for device in devices)`. */
  predicate DeviceConnected(udid: string, devices: seq<string>) {
    exists i :: 0 <= i < |devices| && Contains(devices[i], udid)
  }

  /** A device matches when the UDID occurs anywhere inside its entry. */
  lemma DeviceConnectedIff(udid: string, devices: seq<string>)
    ensures DeviceConnected(udid, devices) <==>
      exists i, j :: 0 <= i < |devices| && 0 <= j <= |devices[i]| && StartsWith(devices[i][j..], udid)
  {
    forall i | 0 <= i < |devices| {
      ContainsIff(devices[i], udid);
    }
  }

  /** The empty text occurs in every entry, which is why the empty UDID is
      answered before any device is compared. */
  lemma EmptyUdidMatchesAnyDevice(devices: seq<string>)
    requires devices != []
    ensures DeviceConnected("", devices)
  {
    assert StartsWith(devices[0], "");
  }

  /** What update_udid_display shows: the configured UDID, else the first device
      (Unknown when that entry is empty), else Not configured. */
  function UdidShown(udid: string, devices: seq<string>): string {
    if udid != "" then udid
    else if devices != [] then (if devices[0] != "" then devices[0] else "Unknown")
    else "Not configured"
  }

  /** The UDID refresh_devices keeps: a configured one, else the first device
      when that entry is not empty. */
  function AdoptedUdid(udid: string, devices: seq<string>): string {
    if udid == "" && devices != [] && devices[0] != "" then devices[0] else udid
  }

  /** A configured UDID is shown and never replaced. */
  lemma ConfiguredUdidKept(udid: string, devices: seq<string>)
    requires udid != ""
    ensures UdidShown(udid, devices) == udid && AdoptedUdid(udid, devices) == udid
  {
  }

  /** Without a configured UDID, one is adopted exactly when the first device
      entry is not empty, and then the label and the adopted UDID agree. */
  lemma AutoDetect(devices: seq<string>)
    ensures AdoptedUdid("", devices) != "" <==> devices != [] && devices[0] != ""
    ensures AdoptedUdid("", devices) != "" ==> UdidShown("", devices) == AdoptedUdid("", devices)
    ensures AdoptedUdid("", devices) == "" ==> UdidShown("", devices) in {"Unknown", "Not configured"}
  {
  }

  /* ---------- Settings ---------- */

  const DefaultAppiumUrl: string := "http://127.0.0.1:4723"
  const DefaultWdaUrl: string := "http://127.0.0.1:8200"
  const DefaultGoIos: string := "C:\\tools\\go-ios\\ios.exe"

  /** `env.get(key, default)`. */
  function Setting(env: map<string, string>, key: string, default: string): (value: string)
    ensures key in env ==> value == env[key]
    ensures key !in env ==> value == default
  {
    if key in env then env[key] else default
  }

  /** The default WebDriverAgent URL is checked on port 8200. */
  lemma DefaultWdaPort()
    ensures WdaPort(DefaultWdaUrl) == "8200"
  {
    var host, port := "http://127.0.0.1", "8200";
    assert DefaultWdaUrl == host + ":" + port;
    WdaPortOf(host, port);
  }

  /* ---------- The panel ---------- */

  /** The console widget: the text segments written to it, each with its tag. */
  class Console {
    var segments: seq<Segment>

    constructor()
      ensures segments == []
    {
      segments := [];
    }
  }

  const InitMessage: string := "\U{1F680} iOS Automation Control Panel initialized"
  const TipMessage: string := "\U{1F4A1} Tip: Use Ctrl+L to clear console, F5 to refresh devices"
  const NoDevicesMessage: string := "No devices found. Make sure your iOS device is connected and trusted."

  /** The console lines refresh_devices writes, one per device, in order. */
  function DeviceLines(ts: string, devices: seq<string>): (segments: seq<Segment>)
    decreases |devices|
  {
    if |devices| == 0 then []
    else DeviceLines(ts, devices[..|devices| - 1]) + Logged(ts, "  - " + devices[|devices| - 1], "info")
  }

  /** Each device line is one console call of two segments. */
  lemma {:induction false} DeviceLinesLength(ts: string, devices: seq<string>)
    ensures |DeviceLines(ts, devices)| == 2 * |devices|
    decreases |devices|
  {
    if |devices| > 0 {
      DeviceLinesLength(ts, devices[..|devices| - 1]);
    }
  }

  /** The line for a device at position i is where the i-th console call put it. */
  lemma {:induction false} DeviceLineAt(ts: string, devices: seq<string>, i: nat)
    requires i < |devices|
    ensures |DeviceLines(ts, devices)| == 2 * |devices|
    ensures DeviceLines(ts, devices)[2 * i + 1] == Segment("  - " + devices[i] + "\n", Classify("  - " + devices[i], "info"))
    decreases |devices|
  {
    var init := devices[..|devices| - 1];
    DeviceLinesLength(ts, init);
    if i < |devices| - 1 {
      DeviceLineAt(ts, init, i);
      assert init[i] == devices[i];
    }
  }

  /** The line refresh_devices writes when it adopts a UDID, nothing otherwise. */
  function AdoptionLog(ts: string, udid: string, devices: seq<string>): seq<Segment> {
    if AdoptedUdid(udid, devices) != udid then Logged(ts, "Auto-detected device UDID: " + devices[0], "info") else []
  }

  /** What refresh_devices writes after finding devices: their count, one line
      each, and the adoption line. */
  function FoundLog(ts: string, udid: string, devices: seq<string>): seq<Segment> {
    Logged(ts, "Found " + NatToString(|devices|) + " device(s):", "info") + DeviceLines(ts, devices)
    + AdoptionLog(ts, udid, devices)
  }

  /** Everything one refresh_devices run writes to the console. */
  function RefreshLog(ts: string, udid: string, devices: seq<string>): seq<Segment> {
    var rest := if devices == [] then Logged(ts, NoDevicesMessage, "info") else FoundLog(ts, udid, devices);
    Logged(ts, "Refreshing device list...", "info") + rest
  }

  /** The UDID label after refresh_devices: "No devices found" without devices;
      the adopted device when one is adopted; otherwise what update_udid_display
      showed from its own device list. */
  function RefreshedDisplay(udid: string, devices: seq<string>, again: seq<string>): string {
    if devices == [] then "No devices found"
    else if AdoptedUdid(udid, devices) != udid then devices[0]
    else UdidShown(udid, again)
  }

  /** A refresh with a configured UDID keeps it, and its label shows it. */
  lemma RefreshKeepsConfiguredUdid(udid: string, devices: seq<string>, again: seq<string>)
    requires udid != "" && devices != []
    ensures AdoptedUdid(udid, devices) == udid && RefreshedDisplay(udid, devices, again) == udid
  {
  }

  /** A refresh that finds devices writes the refresh line, the count line, one
      line per device and, when a UDID is adopted, the line saying so. */
  lemma RefreshLogLength(ts: string, udid: string, devices: seq<string>)
    requires devices != []
    ensures |RefreshLog(ts, udid, devices)| == 2 * (2 + |devices| + (if AdoptedUdid(udid, devices) != udid then 1 else 0))
  {
    DeviceLinesLength(ts, devices);
  }

  /** ControlPanel: its settings from the `.env` file, the state it tracks, the
      label texts and the console. */
  class ControlPanel {
    const env: map<string, string>
    const appiumUrl: string
    const wdaUrl: string
    const goIosPath: string
    const console: Console
    var udid: string
    var isConnected: bool
    var servicesRunning: bool
    var appiumStatus: string
    var wdaStatus: string
    var deviceStatus: string
    var udidDisplay: string

    /** __init__ and setup_ui: the settings with their defaults, the initial labels,
        the UDID label from one device listing, and the two welcome lines. The
        refresh and monitor threads it starts are not part of this model. */
    constructor(envFile: Option<string>, run: CommandRun, decode: Decoder, ts: string)
      ensures env == EnvFromFile(envFile)
      ensures appiumUrl == Setting(env, "APPIUM_URL", DefaultAppiumUrl)
      ensures wdaUrl == Setting(env, "WDA_URL", DefaultWdaUrl)
      ensures udid == Setting(env, "IOS_UDID", "")
      ensures goIosPath == Setting(env, "GO_IOS_EXE", DefaultGoIos)
      ensures !isConnected && !servicesRunning
      ensures appiumStatus == "\U{274C} Disconnected" && wdaStatus == "\U{274C} Disconnected"
      ensures deviceStatus == "\U{274C} Not Connected"
      ensures udidDisplay == UdidShown(udid, Listed(run, decode))
      ensures fresh(console) && console.segments == Logged(ts, InitMessage, "info") + Logged(ts, TipMessage, "info")
    {
      var loaded := LoadEnv(envFile);
      env := loaded;
      appiumUrl := Setting(loaded, "APPIUM_URL", DefaultAppiumUrl);
      wdaUrl := Setting(loaded, "WDA_URL", DefaultWdaUrl);
      var configured := Setting(loaded, "IOS_UDID", "");
      udid := configured;
      goIosPath := Setting(loaded, "GO_IOS_EXE", DefaultGoIos);
      isConnected := false;
      servicesRunning := false;
      appiumStatus := "\U{274C} Disconnected";
      wdaStatus := "\U{274C} Disconnected";
      deviceStatus := "\U{274C} Not Connected";
      var shown := configured;
      if configured == "" {
        var devices := ListDevices(run, decode);
        shown := UdidShown("", devices);
      }
      udidDisplay := shown;
      var c := new Console();
      c.segments := Logged(ts, InitMessage, "info") + Logged(ts, TipMessage, "info");
      console := c;
    }

    /** log_console: appends the time and the classified message. */
    method LogConsole(ts: string, message: string, msgType: string)
      modifies console
      ensures console.segments == old(console.segments) + Logged(ts, message, msgType)
    {
      var tag := msgType;
      if LooksSuccessful(message) {
        tag := "success";
      } else if LooksFailed(message) {
        tag := "error";
      } else if LooksWarning(message) {
        tag := "warning";
      }
      console.segments := console.segments + [Segment("[" + ts + "] ", "timestamp"), Segment(message + "\n", tag)];
    }

    /** clear_console: empties the console, then says so. */
    method ClearConsole(ts: string)
      modifies console
      ensures console.segments == Logged(ts, "Console cleared", "info")
    {
      console.segments := [];
      LogConsole(ts, "Console cleared", "info");
    }

    /** update_udid_display: sets the UDID label; the device bridge is asked only
        when no UDID is configured. */
    method UpdateUdidDisplay(run: CommandRun, decode: Decoder)
      modifies this
      ensures udidDisplay == UdidShown(udid, Listed(run, decode))
      ensures udid == old(udid) && isConnected == old(isConnected) && servicesRunning == old(servicesRunning)
      ensures appiumStatus == old(appiumStatus) && wdaStatus == old(wdaStatus) && deviceStatus == old(deviceStatus)
    {
      if udid != "" {
        udidDisplay := udid;
      } else {
        var devices := ListDevices(run, decode);
        if devices != [] {
          udidDisplay := if devices[0] != "" then devices[0] else "Unknown";
        } else {
          udidDisplay := "Not configured";
        }
      }
    }

    /** The device part of update_status_display: the configured UDID is looked
        for in the device list; without one the label says it is not configured. */
    method CheckDevice(run: CommandRun, decode: Decoder)
      modifies this
      ensures isConnected <==> udid != "" && DeviceConnected(udid, Listed(run, decode))
      ensures deviceStatus ==
        if udid == "" then "\U{26A0}\U{FE0F} UDID Not Configured"
        else if isConnected then "\U{2705} Connected" else "\U{274C} Not Connected"
      ensures udid == old(udid) && udidDisplay == old(udidDisplay) && servicesRunning == old(servicesRunning)
      ensures appiumStatus == old(appiumStatus) && wdaStatus == old(wdaStatus)
    {
      if udid != "" {
        var devices := ListDevices(run, decode);
        var deviceConnected := exists i :: 0 <= i < |devices| && Contains(devices[i], udid);
        if deviceConnected {
          deviceStatus := "\U{2705} Connected";
          isConnected := true;
        } else {
          deviceStatus := "\U{274C} Not Connected";
          isConnected := false;
        }
      } else {
        deviceStatus := "\U{26A0}\U{FE0F} UDID Not Configured";
        isConnected := false;
      }
    }

    /** update_status_display: probes Appium over HTTP and WebDriverAgent by its
        port, looks for the configured UDID among the devices, and sets the
        labels, `isConnected` and `servicesRunning`. */
    method UpdateStatusDisplay(get: string -> HttpOutcome, connect: string -> ConnectOutcome,
                               run: CommandRun, decode: Decoder)
      modifies this
      ensures appiumStatus == if get(appiumUrl + "/status") == Responded(200) then "\U{2705} Connected" else "\U{274C} Disconnected"
      ensures wdaStatus == if connect(WdaPort(wdaUrl)) == ConnectCode(0) then "\U{2705} Running" else "\U{274C} Not Running"
      ensures isConnected <==> udid != "" && DeviceConnected(udid, Listed(run, decode))
      ensures deviceStatus ==
        if udid == "" then "\U{26A0}\U{FE0F} UDID Not Configured"
        else if isConnected then "\U{2705} Connected" else "\U{274C} Not Connected"
      ensures servicesRunning <==> get(appiumUrl + "/status") == Responded(200) && connect(WdaPort(wdaUrl)) == ConnectCode(0)
      ensures udid == old(udid) && udidDisplay == old(udidDisplay)
    {
      var appiumRunning := CheckServiceStatus(appiumUrl, get);
      appiumStatus := if appiumRunning then "\U{2705} Connected" else "\U{274C} Disconnected";
      var wdaPort := WdaPort(wdaUrl);
      var wdaRunning := CheckPortOpen(wdaPort, connect);
      wdaStatus := if wdaRunning then "\U{2705} Running" else "\U{274C} Not Running";
      CheckDevice(run, decode);
      servicesRunning := appiumRunning && wdaRunning;
    }

    /** The `  - device` lines of refresh_devices, one console call per device. */
    method LogDevices(ts: string, devices: seq<string>)
      modifies console
      ensures console.segments == old(console.segments) + DeviceLines(ts, devices)
    {
      var listed := console.segments;
      for i := 0 to |devices|
        invariant console.segments == listed + DeviceLines(ts, devices[..i])
      {
        assert devices[..i + 1][..i] == devices[..i];
        LogConsole(ts, "  - " + devices[i], "info");
      }
      assert devices[..|devices|] == devices;
    }

    /** The auto-detect step of refresh_devices: without a configured UDID a
        non-empty first device becomes the UDID, is shown, and is logged. */
    method AdoptFirstDevice(ts: string, devices: seq<string>)
      requires devices != []
      modifies this, console
      ensures udid == AdoptedUdid(old(udid), devices)
      ensures udidDisplay == if udid != old(udid) then devices[0] else old(udidDisplay)
      ensures console.segments == old(console.segments) + AdoptionLog(ts, old(udid), devices)
      ensures isConnected == old(isConnected) && servicesRunning == old(servicesRunning)
      ensures appiumStatus == old(appiumStatus) && wdaStatus == old(wdaStatus) && deviceStatus == old(deviceStatus)
    {
      if udid == "" && devices != [] {
        var firstDevice := if devices[0] != "" then devices[0] else "";
        if firstDevice != "" {
          udid := firstDevice;
          udidDisplay := firstDevice;
          LogConsole(ts, "Auto-detected device UDID: " + firstDevice, "info");
        }
      }
    }

    /** The branch of refresh_devices that found devices. */
    method ReportDevices(ts: string, devices: seq<string>, rerun: CommandRun, decode: Decoder)
      requires devices != []
      modifies this, console
      ensures udid == AdoptedUdid(old(udid), devices)
      ensures udidDisplay == RefreshedDisplay(old(udid), devices, Listed(rerun, decode))
      ensures console.segments == old(console.segments) + FoundLog(ts, old(udid), devices)
      ensures isConnected == old(isConnected) && servicesRunning == old(servicesRunning)
      ensures appiumStatus == old(appiumStatus) && wdaStatus == old(wdaStatus) && deviceStatus == old(deviceStatus)
    {
      ghost var configured := udid;
      LogConsole(ts, "Found " + NatToString(|devices|) + " device(s):", "info");
      LogDevices(ts, devices);
      UpdateUdidDisplay(rerun, decode);
      AdoptFirstDevice(ts, devices);
    }

    /** refresh_devices once the device list is known: the console lines, the
        UDID label and the adopted UDID. */
    method RefreshWith(ts: string, devices: seq<string>, rerun: CommandRun, decode: Decoder)
      modifies this, console
      ensures udid == AdoptedUdid(old(udid), devices)
      ensures udidDisplay == RefreshedDisplay(old(udid), devices, Listed(rerun, decode))
      ensures console.segments == old(console.segments) + RefreshLog(ts, old(udid), devices)
      ensures isConnected == old(isConnected) && servicesRunning == old(servicesRunning)
      ensures appiumStatus == old(appiumStatus) && wdaStatus == old(wdaStatus) && deviceStatus == old(deviceStatus)
    {
      ghost var configured := udid;
      LogConsole(ts, "Refreshing device list...", "info");
      ghost var refreshing := console.segments;
      if devices != [] {
        ReportDevices(ts, devices, rerun, decode);
        assert console.segments == refreshing + FoundLog(ts, configured, devices);
      } else {
        LogConsole(ts, NoDevicesMessage, "info");
        udidDisplay := "No devices found";
      }
    }

    /** refresh_devices: logs the devices found, updates the UDID label (which
        lists the devices a second time, `rerun`) and adopts the first device
        when no UDID is configured; without devices it says so. */
    method RefreshDevices(ts: string, run: CommandRun, rerun: CommandRun, decode: Decoder)
      modifies this, console
      ensures udid == AdoptedUdid(old(udid), Listed(run, decode))
      ensures udidDisplay == RefreshedDisplay(old(udid), Listed(run, decode), Listed(rerun, decode))
      ensures console.segments == old(console.segments) + RefreshLog(ts, old(udid), Listed(run, decode))
      ensures isConnected == old(isConnected) && servicesRunning == old(servicesRunning)
      ensures appiumStatus == old(appiumStatus) && wdaStatus == old(wdaStatus) && deviceStatus == old(deviceStatus)
    {
      var devices := ListDevices(run, decode);
      RefreshWith(ts, devices, rerun, decode);
    }
  }
}
