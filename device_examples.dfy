/** The device lists list_devices returns for the three kinds of tool output
    it is written for: a JSON deviceList line, JSON log noise next to plain
    lines, and plain text. */
module DeviceExamples {
  import opened Text
  import opened Devices
  import opened Wrappers

  /** Plain text with no JSON in it is returned line by line. */
  lemma PlainTextExample(t: string, decode: Decoder)
    requires t == "not json at all"
    ensures Listed(Exited(0, t + "\n"), decode) == [t]
  {
    StripFinalNewline(t);
    StripOfUnpadded(t, Whitespace);
    SplitWithout(t, '\n');
    assert OutputLines(t + "\n") == [t];
    assert !IsDeviceListLine(t) by { assert t[0] != DeviceListPrefix[0]; }
    assert !StartsWith(t, LogNoisePrefix) by { assert t[0] != LogNoisePrefix[0]; }
    KeptOne(t, true);
  }

  /** A JSON log line is neither the device list nor kept. */
  lemma NoiseLineFacts(noise: string)
    requires noise == "{\"level\":\"warn\"}"
    ensures Strip(noise) == noise && !IsDeviceListLine(noise) && !Keeps(noise, true)
  {
    StripOfUnpadded(noise, Whitespace);
    assert noise[2] != DeviceListPrefix[2];
    assert noise[..|LogNoisePrefix|] == LogNoisePrefix;
  }

  /** A bare identifier line is kept as it stands. */
  lemma DeviceLineFacts(device: string)
    requires device == "DEVICE123"
    ensures Strip(device) == device && !IsDeviceListLine(device) && Keeps(device, true)
  {
    StripOfUnpadded(device, Whitespace);
    assert device[0] != DeviceListPrefix[0];
    assert device[0] != LogNoisePrefix[0];
  }

  /** The two-line output splits into its two lines. */
  lemma NoiseOutputLines(noise: string, device: string)
    requires noise == "{\"level\":\"warn\"}" && device == "DEVICE123"
    ensures Strip(noise + "\n" + device + "\n") == noise + "\n" + device
    ensures OutputLines(noise + "\n" + device + "\n") == [noise, device]
  {
    var t := noise + "\n" + device;
    assert noise + "\n" + device + "\n" == t + "\n";
    StripFinalNewline(t);
    SplitAt(noise, '\n', device);
    SplitWithout(device, '\n');
  }

  /** Log noise is filtered away and the identifier line is kept. */
  lemma NoiseExample(noise: string, device: string, decode: Decoder)
    requires noise == "{\"level\":\"warn\"}" && device == "DEVICE123"
    ensures Listed(Exited(0, noise + "\n" + device + "\n"), decode) == [device]
  {
    NoiseOutputLines(noise, device);
    NoiseLineFacts(noise);
    DeviceLineFacts(device);
    var lines := [noise, device];
    assert forall k :: 0 <= k < |lines| ==> !IsDeviceListLine(lines[k]);
    KeptAppend([noise], [device], true);
    KeptOne(noise, true);
    KeptOne(device, true);
    assert lines == [noise] + [device];
  }

  /** A deviceList line is recognised by its prefix. */
  lemma JsonLinePrefix(line: string)
    requires line == "{\"deviceList\":[\"AAA\",\"BBB\"]}"
    ensures Strip(line) == line && IsDeviceListLine(line)
  {
    StripOfUnpadded(line, Whitespace);
    var rest := ":[\"AAA\",\"BBB\"]}";
    assert line == DeviceListPrefix + rest;
    assert (DeviceListPrefix + rest)[..|DeviceListPrefix|] == DeviceListPrefix;
  }

  /** Output holding only a deviceList line splits into that line. */
  lemma JsonLineFacts(line: string)
    requires line == "{\"deviceList\":[\"AAA\",\"BBB\"]}"
    ensures Strip(line + "\n") == line && Strip(line) == line && IsDeviceListLine(line)
    ensures OutputLines(line + "\n") == [line]
  {
    JsonLinePrefix(line);
    StripFinalNewline(line);
    SplitWithout(line, '\n');
  }

  /** The identifiers of a decoded deviceList line are the result. */
  lemma JsonExample(line: string, decode: Decoder)
    requires line == "{\"deviceList\":[\"AAA\",\"BBB\"]}"
    requires decode(line) == Parsed(Some(["AAA", "BBB"]))
    ensures Listed(Exited(0, line + "\n"), decode) == ["AAA", "BBB"]
  {
    JsonLineFacts(line);
    assert IsFirstDeviceListLine([line], 0);
  }
}
