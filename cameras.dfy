/** `cameras/camera_manager.py`, the part that finds cameras: the parsers
    of the `v4l2-ctl --list-devices` and `v4l2-ctl --device=<dev> -D`
    outputs (each a return code and the captured standard output), the
    `WEBCAM` filter of the Linux manager, the probe for working capture
    indices and the camera table built from both.  The host is a value:
    the output of the listing command, the output of the detail command
    for each device, and which capture indices open. */
module Cameras {
  import opened Outcomes
  import opened Text
  import Sequences

  // ---------------------------------------------------------------------
  // `get_devices_list`

  /** One `{'Name': ..., 'Device': ...}` entry. */
  datatype Device = Device(name: string, device: string)

  /** `[dev for dev in stdout.split('\n\n') if dev.strip()]`. */
  function DeviceBlocks(stdout: string): seq<string> {
    Sequences.Filter(Split(stdout, "\n\n"), NonBlank)
  }

  /** `[line.strip() for line in lines if line.strip()]`. */
  function StrippedLines(lines: seq<string>): seq<string> {
    if lines == [] then []
    else
      var rest := StrippedLines(lines[1..]);
      if NonBlank(lines[0]) then [Strip(lines[0])] + rest else rest
  }

  /** The devices one block lists: its first line, minus its last
      character, names the card; every later line starting with
      `/dev/video` is a device of it. */
  function BlockDevices(block: string): seq<Device> {
    var lines := StrippedLines(Split(block, "\n"));
    if lines == [] then [] else VideoDevices(DropLast(lines[0]), lines[1..])
  }

  /** `[Device(name, line) for line in lines if line.startswith('/dev/video')]`,
      built from the back as the loop appends. */
  function VideoDevices(name: string, lines: seq<string>): seq<Device> {
    if lines == [] then []
    else
      var last := lines[|lines| - 1];
      VideoDevices(name, lines[..|lines| - 1]) + (if StartsWith(last, "/dev/video") then [Device(name, last)] else [])
  }

  /** The devices of every block, block after block. */
  function DevicesOf(blocks: seq<string>): seq<Device> {
    Sequences.ConcatMap(BlockDevices, blocks)
  }

  /** `get_devices_list` on (return code, standard output). */
  function DevicesSpec(rc: int, stdout: string): Result<seq<Device>> {
    if rc != 0 then Err(RuntimeError) else Ok(DevicesOf(DeviceBlocks(stdout)))
  }

  /** The loops of `get_devices_list`: blocks in order, and in each block
      the `/dev/video` lines in order. */
  method GetDevicesList(rc: int, stdout: string) returns (r: Result<seq<Device>>)
    ensures r == DevicesSpec(rc, stdout)
  {
    if rc != 0 {
      return Err(RuntimeError);
    }
    var blocks := DeviceBlocks(stdout);
    var cameras: seq<Device> := [];
    for i := 0 to |blocks|
      invariant cameras == DevicesOf(blocks[..i])
    {
      assert blocks[..i + 1][..i] == blocks[..i];
      var found := ScanBlock(blocks[i]);
      cameras := cameras + found;
    }
    assert blocks[..|blocks|] == blocks;
    r := Ok(cameras);
  }

  /** The body of the outer loop of `get_devices_list`: the card name
      from the first line of the block, then its devices. */
  method ScanBlock(block: string) returns (found: seq<Device>)
    ensures found == BlockDevices(block)
  {
    var lines := StrippedLines(Split(block, "\n"));
    if lines == [] {
      return [];
    }
    found := ScanPaths(DropLast(lines[0]), lines[1..]);
  }

  /** The inner loop of `get_devices_list` over the lines after the
      first. */
  method ScanPaths(cameraName: string, paths: seq<string>) returns (found: seq<Device>)
    ensures found == VideoDevices(cameraName, paths)
  {
    found := [];
    for j := 0 to |paths|
      invariant found == VideoDevices(cameraName, paths[..j])
    {
      assert paths[..j + 1][..j] == paths[..j];
      if StartsWith(paths[j], "/dev/video") {
        found := found + [Device(cameraName, paths[j])];
      }
    }
    assert paths[..|paths|] == paths;
  }

  lemma {:induction false} VideoDevicesMembership(name: string, lines: seq<string>)
    ensures forall d :: d in VideoDevices(name, lines) <==>
      d.name == name && d.device in lines && StartsWith(d.device, "/dev/video")
  {
    if lines != [] {
      VideoDevicesMembership(name, lines[..|lines| - 1]);
      assert lines == lines[..|lines| - 1] + [lines[|lines| - 1]];
    }
  }

  /** The device entries the listing makes of one block. */
  predicate ListsDevice(block: string, d: Device) {
    var lines := StrippedLines(Split(block, "\n"));
    lines != [] && d.name == DropLast(lines[0]) && d.device in lines[1..] && StartsWith(d.device, "/dev/video")
  }

  lemma BlockDevicesMembership(block: string, d: Device)
    ensures d in BlockDevices(block) <==> ListsDevice(block, d)
  {
    var lines := StrippedLines(Split(block, "\n"));
    if lines != [] {
      VideoDevicesMembership(DropLast(lines[0]), lines[1..]);
    }
  }

  /** The blocks are the non-blank pieces of the output between blank
      lines. */
  lemma DeviceBlocksMembership(stdout: string, b: string)
    ensures b in DeviceBlocks(stdout) <==> b in Split(stdout, "\n\n") && NonBlank(b)
  {
    Sequences.FilterMembership(Split(stdout, "\n\n"), NonBlank);
  }

  /** What `get_devices_list` lists: a nonzero return code is a
      `RuntimeError`; otherwise an entry is exactly a pair of the name of a
      block (its first stripped line without the last character) and one
      of the later stripped lines of that block that starts with
      `/dev/video`. */
  lemma DevicesListSpec(rc: int, stdout: string, d: Device)
    ensures rc != 0 ==> DevicesSpec(rc, stdout) == Err(RuntimeError)
    ensures rc == 0 ==> DevicesSpec(rc, stdout).Ok?
    ensures rc == 0 ==>
      (d in DevicesSpec(rc, stdout).value <==> exists b :: b in DeviceBlocks(stdout) && ListsDevice(b, d))
  {
    if rc == 0 {
      DevicesOfMembership(DeviceBlocks(stdout), d);
    }
  }

  /** A device is listed exactly when one of the blocks lists it. */
  lemma DevicesOfMembership(blocks: seq<string>, d: Device)
    ensures d in DevicesOf(blocks) <==> exists b :: b in blocks && ListsDevice(b, d)
  {
    Sequences.ConcatMapMembership(BlockDevices, blocks, d);
    if d in DevicesOf(blocks) {
      var k :| 0 <= k < |blocks| && d in BlockDevices(blocks[k]);
      BlockDevicesMembership(blocks[k], d);
    }
    if exists b :: b in blocks && ListsDevice(b, d) {
      var b :| b in blocks && ListsDevice(b, d);
      var k :| 0 <= k < |blocks| && blocks[k] == b;
      BlockDevicesMembership(b, d);
    }
  }

  // ---------------------------------------------------------------------
  // `get_camera_details`

  /** A value of the details dictionary: a string, or a section (a
      dictionary of strings). */
  datatype Detail = Value(text: string) | Section(entries: map<string, string>)

  /** The loop's state: the dictionary so far and the current section,
      `None` while the local variable `section` is still unbound. */
  datatype DetailsState = DetailsState(details: map<string, Detail>, section: Option<string>)

  /** `[line for line in stdout.split('\n') if line.strip()]`: the lines
      are kept unstripped. */
  function DetailLines(stdout: string): seq<string> {
    Sequences.Filter(Split(stdout, "\n"), NonBlank)
  }

  /** A `key: value` line, as opposed to a section header. */
  predicate IsPairLine(line: string) {
    !EndsWith(line, ":") && ':' in line
  }

  /** `key, val = line.split(':', 1)`, both stripped. */
  function PairOf(line: string): (string, string)
    requires ':' in line
  {
    var (key, val) := SplitOnce(line, ':');
    (Strip(key), Strip(val))
  }

  /** One pass of the loop body of `get_camera_details`. */
  function DetailStep(st: DetailsState, line: string): Result<DetailsState> {
    if EndsWith(line, ":") then
      var section := DropLast(line);
      Ok(DetailsState(st.details[section := Section(map[])], Some(section)))
    else if ':' in line then
      var (key, val) := PairOf(line);
      match st.section
      case None => Err(UnboundLocalError)
      case Some(section) =>
        if section != "" then
          if section !in st.details then Err(KeyError)
          else if st.details[section].Value? then Err(TypeError)
          else
            var entries := st.details[section].entries;
            Ok(st.(details := st.details[section := Section(entries[key := val])]))
        else Ok(st.(details := st.details[key := Value(val)]))
    else Ok(st)
  }

  /** The loop over all lines, the first failure ending it. */
  function DetailRun(st: DetailsState, lines: seq<string>): Result<DetailsState> {
    Steps(DetailStep, st, lines)
  }

  /** `get_camera_details` with the local `section` starting as `init`. */
  function CameraDetailsFrom(init: Option<string>, rc: int, stdout: string): Result<map<string, Detail>> {
    if rc != 0 then Err(RuntimeError)
    else
      var lines := DetailLines(stdout);
      if lines == [] then Err(RuntimeError)
      else
        match DetailRun(DetailsState(map[], init), lines)
        case Err(e) => Err(e)
        case Ok(st) => Ok(st.details)
  }

  /** `get_camera_details` as written: `section` is only bound by a header
      line, so a `key: value` line before any header reads an unbound
      local. */
  function CameraDetailsAsWritten(rc: int, stdout: string): Result<map<string, Detail>> {
    CameraDetailsFrom(None, rc, stdout)
  }

  /** `get_camera_details` with `section` initialised to `''`, so that
      pairs before the first header go to the top level, as the
      `if section ... else` branch intends. */
  method GetCameraDetails(rc: int, stdout: string) returns (r: Result<map<string, Detail>>)
    ensures r == CameraDetailsFrom(Some(""), rc, stdout)
  {
    if rc != 0 {
      return Err(RuntimeError);
    }
    var lines := DetailLines(stdout);
    if lines == [] {
      return Err(RuntimeError);
    }
    r := ScanDetails(lines);
  }

  /** The loop of `get_camera_details` over the non-blank lines, with
      `section` initialised to `''`. */
  method ScanDetails(lines: seq<string>) returns (r: Result<map<string, Detail>>)
    ensures match DetailRun(DetailsState(map[], Some("")), lines)
      case Err(e) => r == Err(e)
      case Ok(st) => r == Ok(st.details)
  {
    ghost var init := DetailsState(map[], Some(""));
    var details: map<string, Detail> := map[];
    var section := "";
    for i := 0 to |lines|
      invariant DetailRun(init, lines[..i]) == Ok(DetailsState(details, Some(section)))
    {
      assert lines[..i + 1][..i] == lines[..i];
      assert lines[..i + 1] + lines[i + 1..] == lines;
      var line := lines[i];
      if EndsWith(line, ":") {
        section := DropLast(line);
        details := details[section := Section(map[])];
      } else if ':' in line {
        var (key, val) := PairOf(line);
        if section != "" {
          if section !in details || details[section].Value? {
            r := if section !in details then Err(KeyError) else Err(TypeError);
            StepsAppend(DetailStep, init, lines[..i + 1], lines[i + 1..]);
            return;
          }
          details := details[section := Section(details[section].entries[key := val])];
        } else {
          details := details[key := Value(val)];
        }
      }
    }
    assert lines[..|lines|] == lines;
    r := Ok(details);
  }

  /** A failure ends the loop: whatever lines follow, the run fails the
      same way. */
  lemma DetailRunStopsAtFailure(st: DetailsState, a: seq<string>, b: seq<string>)
    requires DetailRun(st, a).Err?
    ensures DetailRun(st, a + b) == DetailRun(st, a)
  {
    StepsAppend(DetailStep, st, a, b);
  }

  /** Lines without a colon are ignored. */
  lemma DetailRunIgnoresPlainLines(st: DetailsState, a: seq<string>, line: string, b: seq<string>)
    requires ':' !in line
    ensures DetailRun(st, a + [line] + b) == DetailRun(st, a + b)
  {
    StepsAppend(DetailStep, st, a + [line], b);
    StepsAppend(DetailStep, st, a, b);
    StepsAppend(DetailStep, st, a, [line]);
    assert [line][..0] == [];
    NotEndsWith(line, ':');
  }

  /** Every line is a `key: value` line. */
  predicate AllPairLines(lines: seq<string>) {
    lines == [] || (AllPairLines(lines[..|lines| - 1]) && IsPairLine(lines[|lines| - 1]))
  }

  /** The dictionary the `key: value` lines of a section describe, later
      keys overriding earlier ones. */
  function Pairs(lines: seq<string>): map<string, string>
    requires AllPairLines(lines)
  {
    if lines == [] then map[]
    else
      var last := lines[|lines| - 1];
      var pair := PairOf(last);
      Pairs(lines[..|lines| - 1])[pair.0 := pair.1]
  }

  /** A header line `name:` opens an empty section `name` and makes it
      the current one. */
  lemma StepHeader(st: DetailsState, name: string)
    ensures DetailStep(st, name + ":") == Ok(DetailsState(st.details[name := Section(map[])], Some(name)))
  {
    var header := name + ":";
    assert EndsWith(header, ":") && DropLast(header) == name;
  }

  /** Inside a section, a `key: value` line sets the stripped key of that
      section to the stripped value. */
  lemma StepPairInSection(st: DetailsState, line: string)
    requires IsPairLine(line)
    requires st.section.Some? && st.section.value != ""
    requires st.section.value in st.details && st.details[st.section.value].Section?
    ensures var name := st.section.value;
      var pair := PairOf(line);
      DetailStep(st, line) == Ok(st.(details := st.details[name := Section(st.details[name].entries[pair.0 := pair.1])]))
  {
  }

  /** A header line `name:` followed by `key: value` lines gives the
      section `name` exactly the dictionary of those pairs, and it becomes
      the current section; nothing else in the dictionary changes. */
  lemma {:induction false} SectionCollectsPairs(st: DetailsState, name: string, pairs: seq<string>)
    requires name != "" && AllPairLines(pairs)
    ensures DetailRun(st, [name + ":"] + pairs) ==
      Ok(DetailsState(st.details[name := Section(Pairs(pairs))], Some(name)))
    decreases |pairs|
  {
    var header := name + ":";
    if pairs == [] {
      assert [header] + pairs == [header];
      HeaderRun(st, name);
    } else {
      var n := |pairs| - 1;
      var init := pairs[..n];
      SectionCollectsPairs(st, name, init);
      assert [header] + pairs == ([header] + init) + [pairs[n]];
      DetailRunSnoc(st, [header] + init, pairs[n]);
      var mid := DetailsState(st.details[name := Section(Pairs(init))], Some(name));
      StepPairInSection(mid, pairs[n]);
      assert mid.details[name := Section(Pairs(pairs))] == st.details[name := Section(Pairs(pairs))];
    }
  }

  /** A lone header line opens its empty section. */
  lemma HeaderRun(st: DetailsState, name: string)
    ensures DetailRun(st, [name + ":"]) == Ok(DetailsState(st.details[name := Section(map[])], Some(name)))
  {
    var header := name + ":";
    assert [header][..0] == [];
    assert Steps(DetailStep, st, [header][..0]) == Ok(st);
    assert DetailRun(st, [header]) == DetailStep(st, header);
    StepHeader(st, name);
  }

  /** Running one more line is one more step from where the run stopped. */
  lemma DetailRunSnoc(st: DetailsState, lines: seq<string>, line: string)
    ensures DetailRun(st, lines + [line]) ==
      match DetailRun(st, lines)
      case Err(e) => Err(e)
      case Ok(mid) => DetailStep(mid, line)
  {
    assert (lines + [line])[..|lines|] == lines;
  }

  /** Before any header (with `section` initialised to `''`) a
      `key: value` line stores the stripped value under the stripped key at
      the top level; so do all of them, later keys overriding earlier
      ones. */
  lemma {:induction false} TopLevelPairs(details: map<string, Detail>, pairs: seq<string>)
    requires AllPairLines(pairs)
    ensures DetailRun(DetailsState(details, Some("")), pairs).Ok?
    ensures var r := DetailRun(DetailsState(details, Some("")), pairs).value;
      r.section == Some("")
      && (forall k :: k in r.details <==> k in details || k in Pairs(pairs))
      && (forall k :: k in Pairs(pairs) ==> r.details[k] == Value(Pairs(pairs)[k]))
      && (forall k :: k in details && k !in Pairs(pairs) ==> r.details[k] == details[k])
    decreases |pairs|
  {
    if pairs != [] {
      var n := |pairs| - 1;
      TopLevelPairs(details, pairs[..n]);
    }
  }

  /** The current section, once bound, is `''` (top level) or names a
      section of the dictionary. */
  predicate SectionOpen(st: DetailsState) {
    st.section.Some?
    && (st.section.value == "" || (st.section.value in st.details && st.details[st.section.value].Section?))
  }

  /** With `section` bound from the start the loop never fails: every
      step keeps the current section open, so the `KeyError` and
      `TypeError` branches are unreachable. */
  lemma {:induction false} DetailRunNeverFails(st: DetailsState, lines: seq<string>)
    requires SectionOpen(st)
    ensures DetailRun(st, lines).Ok? && SectionOpen(DetailRun(st, lines).value)
  {
    if lines != [] {
      DetailRunNeverFails(st, lines[..|lines| - 1]);
    }
  }

  /** So the corrected parser fails exactly when the command fails or
      prints nothing but blank lines. */
  lemma CameraDetailsErrors(rc: int, stdout: string)
    ensures CameraDetailsFrom(Some(""), rc, stdout).Err? <==> rc != 0 || DetailLines(stdout) == []
    ensures CameraDetailsFrom(Some(""), rc, stdout).Err? ==> CameraDetailsFrom(Some(""), rc, stdout).error == RuntimeError
  {
    DetailRunNeverFails(DetailsState(map[], Some("")), DetailLines(stdout));
  }

  /** Output whose first non-blank line is a section header is parsed the
      same way with and without the initialisation of `section`. */
  lemma AsWrittenAgreesAfterHeader(rc: int, stdout: string)
    requires DetailLines(stdout) != [] && EndsWith(DetailLines(stdout)[0], ":")
    ensures CameraDetailsAsWritten(rc, stdout) == CameraDetailsFrom(Some(""), rc, stdout)
  {
    var lines := DetailLines(stdout);
    assert lines == [lines[0]] + lines[1..];
    assert [lines[0]][..0] == [];
    StepsAppend(DetailStep, DetailsState(map[], None), [lines[0]], lines[1..]);
    StepsAppend(DetailStep, DetailsState(map[], Some("")), [lines[0]], lines[1..]);
  }

  /** The finding, exhibited: output whose first line is a `key: value`
      pair.  As written the parser fails with `UnboundLocalError`; with
      `section` initialised the pair lands at the top level. */
  lemma UnboundSectionExample()
    ensures CameraDetailsAsWritten(0, "a: b") == Err(UnboundLocalError)
    ensures CameraDetailsFrom(Some(""), 0, "a: b") == Ok(map["a" := Value("b")])
  {
    var out := "a: b";
    SplitAbsent(out, '\n');
    assert NonBlank(out) by {
      assert LStrip(out) == out;
      assert RStrip(out) == out;
    }
    assert DetailLines(out) == [out] by {
      assert Split(out, "\n")[1..] == [];
    }
    assert !EndsWith(out, ":") && ':' in out;
    assert out[1..] == ": b" && ": b"[1..] == " b";
    assert SplitOnce(": b", ':') == ([], " b");
    assert out[0] == 'a' && ['a'] + [] == "a";
    assert SplitOnce(out, ':') == ("a", " b");
    assert Strip("a") == "a" by {
      assert LStrip("a") == "a";
      assert RStrip("a") == "a";
    }
    assert Strip(" b") == "b" by {
      assert LStrip(" b") == "b" by { assert " b"[1..] == "b"; assert LStrip("b") == "b"; }
      assert RStrip("b") == "b";
    }
  }

  // ---------------------------------------------------------------------
  // `LinuxCamerasManager.get_cameras_info`

  /** A device entry with its `Details`. */
  datatype CameraRecord = CameraRecord(name: string, device: string, details: map<string, Detail>)

  /** The host the camera code talks to: the result of
      `v4l2-ctl --list-devices`, the result of `v4l2-ctl --device=d -D`
      for each device `d`, and which capture indices open. */
  datatype CameraHost = CameraHost(
    listRc: int, listOut: string,
    detailsOf: string -> (int, string),
    opens: int -> bool)

  /** `'WEBCAM' in name.upper()`. */
  predicate IsWebcam(r: CameraRecord) {
    Contains(Upper(r.name), "WEBCAM")
  }

  /** One pass of the loop of `get_cameras_info`: the device gets its
      details, or the loop fails with the failure of
      `get_camera_details`. */
  function AddRecord(host: CameraHost, records: seq<CameraRecord>, d: Device): Result<seq<CameraRecord>> {
    var (rc, out) := host.detailsOf(d.device);
    match CameraDetailsFrom(Some(""), rc, out)
    case Err(e) => Err(e)
    case Ok(details) => Ok(records + [CameraRecord(d.name, d.device, details)])
  }

  function RecordStep(host: CameraHost): (seq<CameraRecord>, Device) -> Result<seq<CameraRecord>> {
    (records, d) => AddRecord(host, records, d)
  }

  /** The details of every device, in order; the first failure ends it. */
  function RecordsOf(host: CameraHost, devices: seq<Device>): Result<seq<CameraRecord>> {
    Steps(RecordStep(host), [], devices)
  }

  /** The record of device `d`: its name, its path and the details parsed
      from its own `-D` output. */
  ghost predicate RecordOf(host: CameraHost, d: Device, rec: CameraRecord) {
    rec.name == d.name && rec.device == d.device
    && CameraDetailsFrom(Some(""), host.detailsOf(d.device).0, host.detailsOf(d.device).1) == Ok(rec.details)
  }

  /** On success every device has a record, in the same order, holding
      its name, its path and the details parsed from its own `-D`
      output. */
  lemma {:induction false} RecordsOfSpec(host: CameraHost, devices: seq<Device>)
    ensures RecordsOf(host, devices).Ok? ==>
      var r := RecordsOf(host, devices).value;
      |r| == |devices| && forall i :: 0 <= i < |devices| ==> RecordOf(host, devices[i], r[i])
  {
    if devices != [] && RecordsOf(host, devices).Ok? {
      var n := |devices| - 1;
      var init := devices[..n];
      RecordsOfSpec(host, init);
      RecordsOfStep(host, devices);
      var mid := RecordsOf(host, init).value;
      AddRecordOk(host, mid, devices[n]);
      assert devices == init + [devices[n]];
      RecordsExtend(host, init, devices[n], mid, RecordsOf(host, devices).value);
    }
  }

  /** Records for `init` followed by the record of `d` are records for
      `init + [d]`. */
  lemma RecordsExtend(host: CameraHost, init: seq<Device>, d: Device, mid: seq<CameraRecord>, r: seq<CameraRecord>)
    requires |mid| == |init| && forall i :: 0 <= i < |init| ==> RecordOf(host, init[i], mid[i])
    requires |r| == |mid| + 1 && r[..|mid|] == mid && RecordOf(host, d, r[|mid|])
    ensures forall i :: 0 <= i < |init + [d]| ==> RecordOf(host, (init + [d])[i], r[i])
  {
    forall i | 0 <= i < |init + [d]| ensures RecordOf(host, (init + [d])[i], r[i]) {
      if i < |init| {
        assert (init + [d])[i] == init[i] && r[i] == mid[i];
      }
    }
  }

  /** When the records of all devices succeed, so do those of all but the
      last, and the last device's record is added to them. */
  lemma RecordsOfStep(host: CameraHost, devices: seq<Device>)
    requires devices != [] && RecordsOf(host, devices).Ok?
    ensures var init := devices[..|devices| - 1];
      RecordsOf(host, init).Ok?
      && AddRecord(host, RecordsOf(host, init).value, devices[|devices| - 1]) == RecordsOf(host, devices)
  {
  }

  /** A record that is added holds the device's name and path and its
      parsed details, after the records already there. */
  lemma AddRecordOk(host: CameraHost, records: seq<CameraRecord>, d: Device)
    requires AddRecord(host, records, d).Ok?
    ensures var r := AddRecord(host, records, d).value;
      |r| == |records| + 1 && r[..|records|] == records
      && RecordOf(host, d, r[|records|])
  {
  }

  /** `get_cameras_info` on Linux. */
  function CamerasInfoSpec(host: CameraHost): Result<seq<CameraRecord>> {
    match DevicesSpec(host.listRc, host.listOut)
    case Err(e) => Err(e)
    case Ok(devices) =>
      match RecordsOf(host, devices)
      case Err(e) => Err(e)
      case Ok(records) => Ok(Sequences.Filter(records, IsWebcam))
  }

  /** `get_cameras_info` on Linux: the devices, their details, then the
      `WEBCAM` comprehension. */
  method GetCamerasInfo(host: CameraHost) returns (r: Result<seq<CameraRecord>>)
    ensures r == CamerasInfoSpec(host)
  {
    var devices := GetDevicesList(host.listRc, host.listOut);
    if devices.Err? {
      return Err(devices.error);
    }
    var records := ReadDetails(host, devices.value);
    if records.Err? {
      return Err(records.error);
    }
    r := Ok(Sequences.Filter(records.value, IsWebcam));
  }

  /** The loop of `get_cameras_info` attaching the details to every
      device. */
  method ReadDetails(host: CameraHost, devices: seq<Device>) returns (r: Result<seq<CameraRecord>>)
    ensures r == RecordsOf(host, devices)
  {
    var records: seq<CameraRecord> := [];
    for i := 0 to |devices|
      invariant RecordsOf(host, devices[..i]) == Ok(records)
    {
      assert devices[..i + 1][..i] == devices[..i];
      var (rc, out) := host.detailsOf(devices[i].device);
      var details := GetCameraDetails(rc, out);
      if details.Err? {
        StepsAppend(RecordStep(host), [], devices[..i + 1], devices[i + 1..]);
        assert devices[..i + 1] + devices[i + 1..] == devices;
        return Err(details.error);
      }
      records := records + [CameraRecord(devices[i].name, devices[i].device, details.value)];
    }
    assert devices[..|devices|] == devices;
    r := Ok(records);
  }

  /** The cameras reported are exactly the listed devices whose name
      contains `WEBCAM` in any letter case, in listing order. */
  lemma CamerasInfoWebcams(host: CameraHost)
    ensures CamerasInfoSpec(host).Ok? ==>
      var devices := DevicesSpec(host.listRc, host.listOut).value;
      var records := RecordsOf(host, devices).value;
      (forall c :: c in CamerasInfoSpec(host).value <==> c in records && Contains(Upper(c.name), "WEBCAM"))
      && Sequences.SubseqOf(CamerasInfoSpec(host).value, records)
  {
    if CamerasInfoSpec(host).Ok? {
      var records := RecordsOf(host, DevicesSpec(host.listRc, host.listOut).value).value;
      Sequences.FilterMembership(records, IsWebcam);
      Sequences.FilterSubseq(records, IsWebcam);
    }
  }

  // ---------------------------------------------------------------------
  // `detect_working_cameras`, `get_cameras`, `select_camera`

  /** `max_to_check` as `get_cameras` passes it. */
  const MAX_TO_CHECK := 5

  /** The indices below `n` whose capture opens, in increasing order. */
  function WorkingIndices(opens: int -> bool, n: int): (r: seq<int>)
    ensures forall i :: i in r ==> 0 <= i < n
    decreases n
  {
    if n <= 0 then [] else WorkingIndices(opens, n - 1) + (if opens(n - 1) then [n - 1] else [])
  }

  /** `detect_working_cameras(max_to_check)`: the loop over
      `range(max_to_check)`, empty for a bound that is not positive. */
  method DetectWorkingCameras(opens: int -> bool, maxToCheck: int) returns (working: seq<int>)
    ensures working == WorkingIndices(opens, maxToCheck)
  {
    working := [];
    var i := 0;
    while i < maxToCheck
      invariant 0 <= i && (i <= maxToCheck || i == 0)
      invariant working == WorkingIndices(opens, i)
    {
      if opens(i) {
        working := working + [i];
      }
      i := i + 1;
    }
  }

  /** The reported indices are exactly the indices below the bound whose
      capture opens, each once, in increasing order. */
  lemma {:induction false} WorkingIndicesSpec(opens: int -> bool, n: int)
    ensures forall i :: i in WorkingIndices(opens, n) <==> 0 <= i < n && opens(i)
    ensures forall j, k :: 0 <= j < k < |WorkingIndices(opens, n)| ==> WorkingIndices(opens, n)[j] < WorkingIndices(opens, n)[k]
    decreases n
  {
    if n > 0 {
      WorkingIndicesSpec(opens, n - 1);
      var w := WorkingIndices(opens, n - 1);
      assert forall j :: 0 <= j < |w| ==> w[j] in w;
    }
  }

  /** The configured camera settings (`MY_CFG.camera`). */
  datatype CameraSettings = CameraSettings(brightness: real, contrast: real, saturation: real, exposure: real, wb: real)

  /** `CameraInfo`. */
  datatype CameraInfo = CameraInfo(index: int, name: string, width: int, height: int, settings: CameraSettings)

  /** `get_cameras`: the camera information fails first; no working index
      is a `RuntimeError`; a working index past the end of the information
      list is an `IndexError`; otherwise every working index maps to a
      camera with that index, the name listed at that position, zero width
      and height, and the configured settings. */
  function CamerasSpec(host: CameraHost, settings: CameraSettings): Result<map<int, CameraInfo>> {
    match CamerasInfoSpec(host)
    case Err(e) => Err(e)
    case Ok(infos) =>
      var working := WorkingIndices(host.opens, MAX_TO_CHECK);
      if working == [] then Err(RuntimeError)
      else if exists i :: i in working && i >= |infos| then Err(IndexError)
      else Ok(CameraTable(infos, working, settings))
  }

  /** `get_cameras`: the camera information, the working indices, then
      one camera per working index. */
  method GetCameras(host: CameraHost, settings: CameraSettings) returns (r: Result<map<int, CameraInfo>>)
    ensures r == CamerasSpec(host, settings)
  {
    var infos := GetCamerasInfo(host);
    if infos.Err? {
      return Err(infos.error);
    }
    var working := DetectWorkingCameras(host.opens, MAX_TO_CHECK);
    if working == [] {
      return Err(RuntimeError);
    }
    WorkingIndicesSpec(host.opens, MAX_TO_CHECK);
    assert forall k :: 0 <= k < |working| ==> working[k] in working;
    r := BuildCameras(infos.value, working, settings);
  }

  /** The loop of `get_cameras` over the working indices: a camera per
      index, named after the information entry at that position; an index
      past the end of the information list is an `IndexError`. */
  method BuildCameras(infos: seq<CameraRecord>, working: seq<int>, settings: CameraSettings)
    returns (r: Result<map<int, CameraInfo>>)
    requires forall k :: 0 <= k < |working| ==> 0 <= working[k]
    ensures (exists i :: i in working && i >= |infos|) ==> r == Err(IndexError)
    ensures (forall i :: i in working ==> i < |infos|) ==>
      r == Ok(map i | i in working :: CameraInfo(i, infos[i].name, 0, 0, settings))
  {
    var cameras: map<int, CameraInfo> := map[];
    for k := 0 to |working|
      invariant forall j :: 0 <= j < k ==> working[j] < |infos|
      invariant cameras == map i | i in working[..k] :: CameraInfo(i, infos[i].name, 0, 0, settings)
    {
      var index := working[k];
      if index >= |infos| {
        assert index in working;
        return Err(IndexError);
      }
      assert working[..k + 1] == working[..k] + [index];
      cameras := cameras[index := CameraInfo(index, infos[index].name, 0, 0, settings)];
    }
    assert working[..|working|] == working;
    r := Ok(cameras);
  }

  /** What the user typed at the prompt: an integer, or text `int()`
      rejects. */
  datatype UserInput = Number(n: int) | NotANumber

  /** `select_camera(camera_id)`: failures of `get_cameras` propagate; with
      an id, the camera whose `index` equals it; without one, the camera
      under the number the user enters.  No such camera, or input that is
      not a number, ends the program with status 1. */
  method SelectCamera(host: CameraHost, settings: CameraSettings, cameraId: Option<int>, input: UserInput)
    returns (r: Result<CameraInfo>)
    ensures CamerasSpec(host, settings).Err? ==> r == Err(CamerasSpec(host, settings).error)
    ensures CamerasSpec(host, settings).Ok? ==>
      var cameras := CamerasSpec(host, settings).value;
      if cameraId.Some? then
        if exists c :: c in cameras.Values && c.index == cameraId.value then r.Ok? && r.value in cameras.Values && r.value.index == cameraId.value
        else r == Err(SystemExit(1))
      else if input.Number? && input.n in cameras then r == Ok(cameras[input.n])
      else r == Err(SystemExit(1))
  {
    var cameras := GetCameras(host, settings);
    if cameras.Err? {
      return Err(cameras.error);
    }
    if cameraId.Some? {
      var ids := cameras.value.Keys;
      while ids != {}
        invariant ids <= cameras.value.Keys
        invariant forall i :: i in cameras.value.Keys - ids ==> cameras.value[i].index != cameraId.value
        decreases ids
      {
        var i :| i in ids;
        if cameras.value[i].index == cameraId.value {
          return Ok(cameras.value[i]);
        }
        ids := ids - {i};
      }
      return Err(SystemExit(1));
    }
    if input.NotANumber? || input.n !in cameras.value {
      return Err(SystemExit(1));
    }
    r := Ok(cameras.value[input.n]);
  }

  /** The table holds exactly the working indices, each camera under its
      own index with zero width and height, so selecting by id finds
      exactly the working camera with that index, named after the
      information entry at that position. */
  lemma SelectedCameraIsIndexed(host: CameraHost, settings: CameraSettings, id: int)
    requires CamerasSpec(host, settings).Ok?
    ensures var cameras := CamerasSpec(host, settings).value;
      (forall i :: i in cameras <==> 0 <= i < MAX_TO_CHECK && host.opens(i))
      && (forall i :: i in cameras ==> cameras[i].index == i && cameras[i].width == 0 && cameras[i].height == 0)
      && ((exists c :: c in cameras.Values && c.index == id) <==> 0 <= id < MAX_TO_CHECK && host.opens(id))
      && (id in cameras ==> cameras[id].name == CamerasInfoSpec(host).value[id].name)
  {
    CamerasSpecTable(host, settings);
    WorkingIndicesSpec(host.opens, MAX_TO_CHECK);
    CameraTableIndexed(CamerasInfoSpec(host).value, WorkingIndices(host.opens, MAX_TO_CHECK), settings, id);
  }

  /** A table that `get_cameras` returns is the one built from the
      information list and the working indices. */
  lemma CamerasSpecTable(host: CameraHost, settings: CameraSettings)
    requires CamerasSpec(host, settings).Ok?
    ensures CamerasInfoSpec(host).Ok?
    ensures var infos, working := CamerasInfoSpec(host).value, WorkingIndices(host.opens, MAX_TO_CHECK);
      (forall i :: i in working ==> 0 <= i < |infos|)
      && CamerasSpec(host, settings).value == CameraTable(infos, working, settings)
  {
  }

  /** The table `get_cameras` builds from the information list and the
      working indices. */
  function CameraTable(infos: seq<CameraRecord>, working: seq<int>, settings: CameraSettings): map<int, CameraInfo>
    requires forall i :: i in working ==> 0 <= i < |infos|
  {
    map i | i in working :: CameraInfo(i, infos[i].name, 0, 0, settings)
  }

  /** Each camera of the table sits under its own index, so the cameras
      with a given index are exactly the one under that key. */
  lemma CameraTableIndexed(infos: seq<CameraRecord>, working: seq<int>, settings: CameraSettings, id: int)
    requires forall i :: i in working ==> 0 <= i < |infos|
    ensures var cameras := CameraTable(infos, working, settings);
      (forall i :: i in cameras <==> i in working)
      && (forall i :: i in cameras ==> cameras[i].index == i && cameras[i].width == 0 && cameras[i].height == 0
                                       && cameras[i].name == infos[i].name)
      && ((exists c :: c in cameras.Values && c.index == id) <==> id in working)
  {
    var cameras := CameraTable(infos, working, settings);
    if exists c :: c in cameras.Values && c.index == id {
      var c :| c in cameras.Values && c.index == id;
      var i :| i in cameras && cameras[i] == c;
    }
    if id in working {
      assert cameras[id] in cameras.Values;
    }
  }
}
