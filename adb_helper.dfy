/** `utils/adb_helper.py`: reading the output of `adb devices`, and the
    argument vector of `adb shell`. Running adb is not modelled: its return
    code and output are parameters. */
module AdbHelper {
  import opened Values
  import opened Text

  /** `{'id': ..., 'status': ...}` */
  datatype Device = Device(id: string, status: string)

  /** One line after the header: a stripped line with a tab gives its first
      two fields; a line without one gives status `unknown`; a blank line
      gives nothing. */
  function DeviceOfLine(line: string): Option<Device>
  {
    var l := Strip(line);
    if l == "" then None
    else
      var parts := Split(l, '\t');
      if |parts| >= 2 then Some(Device(Strip(parts[0]), Strip(parts[1])))
      else if |parts| == 1 && Strip(parts[0]) != "" then Some(Device(Strip(parts[0]), "unknown"))
      else None
  }

  /** The devices of the lines after the header, in order. */
  function DevicesOf(lines: seq<string>): seq<Device>
  {
    if |lines| == 0 then []
    else
      var d := DeviceOfLine(lines[|lines| - 1]);
      DevicesOf(lines[..|lines| - 1]) + (if d.Some? then [d.value] else [])
  }

  /** `get_devices()` on adb's return code and output: the header line
      (`List of devices attached`) is skipped. */
  function Devices(returncode: int, stdout: string): seq<Device>
  {
    var lines := Split(Strip(stdout), '\n');
    if returncode != 0 || |lines| == 0 then [] else DevicesOf(lines[1..])
  }

  /** A line gives a device exactly when it is not blank; the id is never
      empty, both fields are stripped, and a line without a tab has status
      `unknown`. */
  lemma DeviceOfLineSpec(line: string)
    ensures DeviceOfLine(line).Some? <==> Strip(line) != ""
    ensures DeviceOfLine(line).Some? ==>
      var d := DeviceOfLine(line).value;
      d.id != "" && IsStripped(d.id) && IsStripped(d.status) &&
      ('\t' !in Strip(line) ==> d == Device(Strip(line), "unknown"))
  {
    var l := Strip(line);
    StripSpec(line);
    if l != "" {
      SplitJoin(l, '\t');
      var parts := Split(l, '\t');
      assert !IsSpace(l[0]);
      match Find(l, '\t')
      case None =>
        assert parts == [l];
        StrippedFixpoint(l);
      case Some(i) =>
        assert i > 0 by {
          assert l[i] == '\t' && IsSpace('\t');
        }
        assert parts[0] == l[..i];
        assert parts[0][0] == l[0];
        StripSpec(parts[0]);
        StripSpec(parts[1]);
    }
  }

  /** Every line yields at most one device, and the header none: there are
      never more devices than lines after the header. */
  lemma {:induction false} DevicesOfCount(lines: seq<string>)
    ensures |DevicesOf(lines)| <= |lines|
    ensures forall d :: d in DevicesOf(lines) ==> d.id != ""
    decreases |lines|
  {
    if |lines| > 0 {
      DevicesOfCount(lines[..|lines| - 1]);
      DeviceOfLineSpec(lines[|lines| - 1]);
    }
  }

  /** The loop of `get_devices`. */
  method ParseDevices(returncode: int, stdout: string) returns (devices: seq<Device>)
    ensures devices == Devices(returncode, stdout)
  {
    if returncode != 0 {
      return [];
    }
    var lines := Split(Strip(stdout), '\n');
    if |lines| == 0 {
      return [];
    }
    var rest := lines[1..];
    devices := [];
    var i := 0;
    while i < |rest|
      invariant 0 <= i <= |rest|
      invariant devices == DevicesOf(rest[..i])
    {
      assert rest[..i + 1][..i] == rest[..i];
      var line := Strip(rest[i]);
      if line != "" {
        var parts := Split(line, '\t');
        if |parts| >= 2 {
          devices := devices + [Device(Strip(parts[0]), Strip(parts[1]))];
        } else if |parts| == 1 && Strip(parts[0]) != "" {
          devices := devices + [Device(Strip(parts[0]), "unknown")];
        }
      }
      i := i + 1;
    }
    assert rest[..i] == rest;
  }

  // ---------------------------------------------------------------------
  // `adb shell`

  /** The argument vector of `execute_shell_command`: `adb [-s id] shell
      [su -c] command`; an empty `deviceId` stands for `None`. */
  function ShellArgv(adb: string, deviceId: string, useSu: bool, command: string): seq<string>
  {
    [adb] + (if deviceId != "" then ["-s", deviceId] else []) +
    ["shell"] + (if useSu then ["su", "-c"] else []) + [command]
  }

  /** Reads an argument vector back into the device, the `su` flag and the
      command. */
  function ReadShellArgv(argv: seq<string>): Option<(string, bool, string)>
  {
    if |argv| < 3 then None
    else
      var hasDevice := argv[1] == "-s" && |argv| >= 5;
      var deviceId := if hasDevice then argv[2] else "";
      var rest := if hasDevice then argv[3..] else argv[1..];
      if |rest| == 2 && rest[0] == "shell" then Some((deviceId, false, rest[1]))
      else if |rest| == 4 && rest[0] == "shell" && rest[1] == "su" && rest[2] == "-c" then Some((deviceId, true, rest[3]))
      else None
  }

  /** The vector holds the device, the `su` flag and the command
      unambiguously, whatever the command text is. */
  lemma ShellArgvRoundTrip(adb: string, deviceId: string, useSu: bool, command: string)
    ensures ReadShellArgv(ShellArgv(adb, deviceId, useSu, command)) == Some((deviceId, useSu, command))
    ensures ShellArgv(adb, deviceId, useSu, command)[0] == adb
    ensures var argv := ShellArgv(adb, deviceId, useSu, command); argv[|argv| - 1] == command
  {
    var argv := ShellArgv(adb, deviceId, useSu, command);
    if deviceId != "" {
      assert argv[3..] == ["shell"] + (if useSu then ["su", "-c"] else []) + [command];
    } else {
      assert argv[1..] == ["shell"] + (if useSu then ["su", "-c"] else []) + [command];
    }
  }

  /** The successive `extend` calls of `execute_shell_command`. */
  method BuildShellArgv(adb: string, deviceId: string, useSu: bool, command: string) returns (argv: seq<string>)
    ensures argv == ShellArgv(adb, deviceId, useSu, command)
  {
    argv := [adb];
    if deviceId != "" {
      argv := argv + ["-s", deviceId];
    }
    if useSu {
      argv := argv + ["shell", "su", "-c", command];
    } else {
      argv := argv + ["shell", command];
    }
  }
}
