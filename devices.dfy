/** How the control panel turns the output of the device-bridge tool's `list`
    command into device identifiers (ControlPanel.list_devices and
    ControlPanel.run_go_ios_command). */
module Devices {
  import opened Wrappers
  import opened Text

  /** One run of the device-bridge executable: it exited with a return code and
      its standard output, or starting or waiting for it raised (missing
      executable, the 30-second timeout, ...). */
  datatype CommandRun = Exited(returnCode: int, stdout: string) | Raised

  /** The `success` flag run_go_ios_command reports. */
  predicate Succeeded(run: CommandRun) {
    run.Exited? && run.returnCode == 0
  }

  /** The stdout run_go_ios_command reports: empty when the call raised. */
  function Output(run: CommandRun): string {
    if run.Exited? then run.stdout else ""
  }

  /** run_go_ios_command reports success only for exit code 0, and a run that
      raised as a failure with empty stdout; either way list_devices then
      returns no devices. */
  lemma FailedRunListsNothing(run: CommandRun, decode: Decoder)
    requires run.Raised? || run.returnCode != 0
    ensures !Succeeded(run)
    ensures run.Raised? ==> Output(run) == ""
    ensures Listed(run, decode) == []
  {
  }

  /** An exit code of 0 is a success, whatever the tool printed. */
  lemma ZeroExitSucceeds(stdout: string)
    ensures Succeeded(Exited(0, stdout)) && Output(Exited(0, stdout)) == stdout
  {
  }

  /** What json.loads followed by `.get("deviceList", [])` makes of one line:
      a decoding error, or an object whose deviceList field may be missing. */
  datatype Decoded = Malformed | Parsed(deviceList: Option<seq<string>>)

  /** json.loads is not part of this model: it is given as a decoding function. */
  type Decoder = string -> Decoded

  const DeviceListPrefix: string := "{\"deviceList\""
  const LogNoisePrefix: string := "{\"level\":"

  /** list_devices parses only when the command succeeded and printed something
      other than whitespace. */
  predicate Usable(run: CommandRun) {
    Succeeded(run) && Strip(Output(run)) != ""
  }

  /** The lines list_devices works on: the stripped output split at each newline. */
  function OutputLines(stdout: string): seq<string> {
    Split(Strip(stdout), '\n')
  }

  /** The JSON line is recognised after stripping the line. */
  predicate IsDeviceListLine(line: string) {
    StartsWith(Strip(line), DeviceListPrefix)
  }

  predicate IsFirstDeviceListLine(lines: seq<string>, k: int) {
    && 0 <= k < |lines|
    && IsDeviceListLine(lines[k])
    && forall j :: 0 <= j < k ==> !IsDeviceListLine(lines[j])
  }

  /** The position of the first deviceList line, |lines| when there is none. */
  function FirstDeviceListLine(lines: seq<string>): (k: nat)
    ensures k <= |lines|
    ensures k < |lines| ==> IsFirstDeviceListLine(lines, k)
    ensures k == |lines| ==> forall j :: 0 <= j < |lines| ==> !IsDeviceListLine(lines[j])
    decreases |lines|
  {
    if |lines| == 0 then 0
    else if IsDeviceListLine(lines[0]) then 0
    else 1 + FirstDeviceListLine(lines[1..])
  }

  /** The test of the line comprehensions: a line is kept when stripping leaves
      something, and, when log noise is filtered, when the line as it stands does
      not start with `{"level":`. */
  predicate Keeps(line: string, filterNoise: bool) {
    Strip(line) != "" && !(filterNoise && StartsWith(line, LogNoisePrefix))
  }

  /** `[line.strip() for line in lines if ...]`: the stripped kept lines, in order. */
  function Kept(lines: seq<string>, filterNoise: bool): seq<string>
    decreases |lines|
  {
    if |lines| == 0 then []
    else (if Keeps(lines[0], filterNoise) then [Strip(lines[0])] else []) + Kept(lines[1..], filterNoise)
  }

  /** The device list list_devices returns for one run of the tool. */
  function Listed(run: CommandRun, decode: Decoder): (devices: seq<string>)
    ensures !Usable(run) ==> devices == []
    ensures Usable(run) ==> var lines := OutputLines(Output(run));
      forall k :: IsFirstDeviceListLine(lines, k) ==>
        match decode(Strip(lines[k]))
        case Malformed => devices == Kept(lines, false)
        case Parsed(field) => devices == field.GetOr([])
    ensures Usable(run) ==> var lines := OutputLines(Output(run));
      (forall k :: 0 <= k < |lines| ==> !IsDeviceListLine(lines[k])) ==> devices == Kept(lines, true)
  {
    if !Usable(run) then []
    else
      var lines := OutputLines(Output(run));
      var k := FirstDeviceListLine(lines);
      if k == |lines| then Kept(lines, true)
      else
        match decode(Strip(lines[k]))
        case Malformed => Kept(lines, false)
        case Parsed(field) => field.GetOr([])
  }

  /** list_devices: the loop looks for the first deviceList line and stops there;
      without one the noise-filtering comprehension applies, and a line that fails
      to decode sends it to the unfiltered comprehension. */
  method ListDevices(run: CommandRun, decode: Decoder) returns (devices: seq<string>)
    ensures devices == Listed(run, decode)
  {
    var success, stdout := Succeeded(run), Output(run);
    devices := [];
    if success && Strip(stdout) != "" {
      var lines := Split(Strip(stdout), '\n');
      var jsonLine: Option<string> := None;
      var i := 0;
      while i < |lines|
        invariant 0 <= i <= |lines|
        invariant jsonLine == None
        invariant forall j :: 0 <= j < i ==> !IsDeviceListLine(lines[j])
      {
        if StartsWith(Strip(lines[i]), DeviceListPrefix) {
          jsonLine := Some(Strip(lines[i]));
          break;
        }
        i := i + 1;
      }
      match jsonLine {
        case Some(line) =>
          assert IsFirstDeviceListLine(lines, i);
          match decode(line) {
            case Malformed =>
              devices := Kept(Split(Strip(stdout), '\n'), false);
            case Parsed(field) =>
              devices := field.GetOr([]);
          }
        case None =>
          devices := Kept(lines, true);
      }
    }
  }

  /** The comprehensions keep the order of the lines: filtering a concatenation is
      concatenating the filtered parts. */
  lemma {:induction false} KeptAppend(a: seq<string>, b: seq<string>, filterNoise: bool)
    ensures Kept(a + b, filterNoise) == Kept(a, filterNoise) + Kept(b, filterNoise)
    decreases |a|
  {
    if |a| > 0 {
      KeptAppend(a[1..], b, filterNoise);
      var head := if Keeps(a[0], filterNoise) then [Strip(a[0])] else [];
      assert (a + b)[0] == a[0] && (a + b)[1..] == a[1..] + b;
      calc {
        Kept(a + b, filterNoise);
        head + Kept(a[1..] + b, filterNoise);
        head + (Kept(a[1..], filterNoise) + Kept(b, filterNoise));
        (head + Kept(a[1..], filterNoise)) + Kept(b, filterNoise);
        Kept(a, filterNoise) + Kept(b, filterNoise);
      }
    } else {
      assert a + b == b;
    }
  }

  /** One line is kept, stripped, or contributes nothing. */
  lemma KeptOne(line: string, filterNoise: bool)
    ensures Kept([line], filterNoise) == if Keeps(line, filterNoise) then [Strip(line)] else []
  {
    assert [line][1..] == [];
  }

  /** Every kept entry is non-empty and already whitespace-trimmed. */
  lemma {:induction false} KeptTrimmed(lines: seq<string>, filterNoise: bool)
    ensures forall x :: x in Kept(lines, filterNoise) ==> x != "" && Strip(x) == x
    decreases |lines|
  {
    if |lines| > 0 {
      KeptTrimmed(lines[1..], filterNoise);
      StripIdempotent(lines[0], Whitespace);
    }
  }

  /** An entry is in the result exactly when some kept line strips to it. */
  lemma {:induction false} KeptMembers(lines: seq<string>, filterNoise: bool, x: string)
    ensures x in Kept(lines, filterNoise) <==>
      exists i :: 0 <= i < |lines| && Keeps(lines[i], filterNoise) && Strip(lines[i]) == x
    decreases |lines|
  {
    if |lines| > 0 {
      KeptMembers(lines[1..], filterNoise, x);
      if exists i :: 0 <= i < |lines[1..]| && Keeps(lines[1..][i], filterNoise) && Strip(lines[1..][i]) == x {
        var i :| 0 <= i < |lines[1..]| && Keeps(lines[1..][i], filterNoise) && Strip(lines[1..][i]) == x;
        assert lines[i + 1] == lines[1..][i];
      }
      if exists i :: 0 <= i < |lines| && Keeps(lines[i], filterNoise) && Strip(lines[i]) == x {
        var i :| 0 <= i < |lines| && Keeps(lines[i], filterNoise) && Strip(lines[i]) == x;
        if i > 0 {
          assert lines[1..][i - 1] == lines[i];
        }
      }
    }
  }

  /** A line that starts with `{"level":` as it stands is dropped as log noise. */
  lemma NoiseLineDropped(line: string)
    requires StartsWith(line, LogNoisePrefix)
    ensures Kept([line], true) == []
  {
  }

  /** The noise test looks at the unstripped line, so an indented `{"level":` line,
      or any indented non-blank line, is kept (stripped). */
  lemma IndentedLineKept(line: string)
    requires |line| > 0 && IsSpace(line[0]) && Strip(line) != ""
    ensures Kept([line], true) == [Strip(line)]
  {
    assert !StartsWith(line, LogNoisePrefix) by {
      assert LogNoisePrefix[0] == '{';
    }
  }
}
