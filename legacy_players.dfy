/**
 * The two older players.
 *
 * The pydub-based stream player lists a leading "默认设备" choice and marks
 * the default device's name, and keeps a module-wide list of temporary
 * files to clean up.  The PyAudio-based audio player lists every
 * output-capable device with an `is_default` flag for the selected one, and
 * can synthesise and play text in one call.
 */
module LegacyPlayers {
  import opened Wrappers
  import opened PyStr
  import opened Bytes
  import opened Http
  import opened JsonValue
  import opened Devices
  import FishSpeech

  /** A `(display name, device index)` choice. */
  datatype Choice = Choice(display: string, index: int)

  const DefaultLabel := "默认设备"
  const DefaultMark := " (默认) "

  /** The display name of device `idx`: the default device's name carries a mark. */
  function Label(d: DeviceInfo, idx: int, defaultIndex: int): string {
    if idx == defaultIndex then d.name + DefaultMark else d.name
  }

  /** The device choices among `devices[..n]`: output-capable, on the default host API. */
  function LegacyListed(devices: seq<DeviceInfo>, defaultIndex: int, defaultApi: string, n: nat): seq<Choice>
    requires n <= |devices|
  {
    if n == 0 then []
    else
      var d := devices[n - 1];
      LegacyListed(devices, defaultIndex, defaultApi, n - 1) +
        (if CanOutput(d) && Contains(d.hostApi, defaultApi) then [Choice(Label(d, n - 1, defaultIndex), n - 1)] else [])
  }

  /** Which devices are listed, under which names, and in index order. */
  lemma {:induction false} LegacyListedSpec(devices: seq<DeviceInfo>, defaultIndex: int, defaultApi: string, n: nat)
    requires n <= |devices|
    ensures forall c :: c in LegacyListed(devices, defaultIndex, defaultApi, n) <==>
      0 <= c.index < n && CanOutput(devices[c.index]) && Contains(devices[c.index].hostApi, defaultApi) &&
      c.display == Label(devices[c.index], c.index, defaultIndex)
    ensures forall a, b :: 0 <= a < b < |LegacyListed(devices, defaultIndex, defaultApi, n)| ==>
      LegacyListed(devices, defaultIndex, defaultApi, n)[a].index < LegacyListed(devices, defaultIndex, defaultApi, n)[b].index
  {
    if n > 0 {
      LegacyListedSpec(devices, defaultIndex, defaultApi, n - 1);
    }
  }

  /** `get_output_devices` of the stream player: the default choice first, then the listed devices. */
  function Choices(devices: seq<DeviceInfo>, defaultIndex: int): Res<seq<Choice>> {
    if |devices| == 0 then Err(RuntimeError("没有找到输出设备"))
    else
      var d := PyAt(devices, defaultIndex);
      if d.None? then Err(IndexError)
      else Ok([Choice(DefaultLabel, defaultIndex)] + LegacyListed(devices, defaultIndex, d.value.hostApi, |devices|))
  }

  function Labels(cs: seq<Choice>): (r: seq<string>)
    ensures |r| == |cs| && forall i :: 0 <= i < |cs| ==> r[i] == cs[i].display
  {
    if cs == [] then [] else [cs[0].display] + Labels(cs[1..])
  }

  /** The search loop of `set_output_device_by_name`. */
  method FindChoice(cs: seq<Choice>, part: string) returns (f: Option<nat>)
    ensures f == FirstContaining(Labels(cs), part)
  {
    ghost var names := Labels(cs);
    var i := 0;
    while i < |cs|
      invariant 0 <= i <= |cs|
      invariant forall j :: 0 <= j < i ==> !Contains(names[j], part)
    {
      if Contains(cs[i].display, part) {
        assert names[i] == cs[i].display;
        FirstContainingAt(names, part, i);
        return Some(i);
      }
      i := i + 1;
    }
    FirstContainingNone(names, part);
    return None;
  }

  /** The pydub-based stream player. */
  class LegacyStreamPlayer {
    var deviceIndex: int

    constructor(defaultIndex: int)
      ensures deviceIndex == defaultIndex
    {
      deviceIndex := defaultIndex;
    }

    /** `get_output_devices`: ("默认设备", default index) first, then the default host API's output devices. */
    method GetOutputDevices(devices: seq<DeviceInfo>, defaultIndex: int) returns (r: Res<seq<Choice>>)
      ensures r == Choices(devices, defaultIndex)
      ensures |devices| == 0 ==> r == Err(RuntimeError("没有找到输出设备"))
      ensures r.Ok? ==> |r.value| >= 1 && r.value[0] == Choice(DefaultLabel, defaultIndex)
      ensures r.Ok? ==> forall k :: 1 <= k < |r.value| ==>
        0 <= r.value[k].index < |devices| && CanOutput(devices[r.value[k].index])
    {
      if |devices| == 0 {
        return Err(RuntimeError("没有找到输出设备"));
      }
      var default := PyAt(devices, defaultIndex);
      if default.None? {
        return Err(IndexError);
      }
      var defaultApi := default.value.hostApi;
      var listed: seq<Choice> := [];
      for idx := 0 to |devices|
        invariant listed == LegacyListed(devices, defaultIndex, defaultApi, idx)
      {
        var device := devices[idx];
        if device.maxOutputChannels > 0 {
          var name := device.name;
          if idx == defaultIndex {
            name := name + DefaultMark;
          }
          if Contains(device.hostApi, defaultApi) {
            listed := listed + [Choice(name, idx)];
          }
        }
      }
      LegacyListedSpec(devices, defaultIndex, defaultApi, |devices|);
      assert forall k :: 1 <= k < |[Choice(DefaultLabel, defaultIndex)] + listed| ==>
        ([Choice(DefaultLabel, defaultIndex)] + listed)[k] in listed;
      return Ok([Choice(DefaultLabel, defaultIndex)] + listed);
    }

    /** `set_output_device`: -1 means the default device; only an existing output-capable device is selected. */
    method SetOutputDevice(index: int, devices: seq<DeviceInfo>, defaultIndex: int) returns (ok: bool)
      modifies this
      ensures ok == Resolve(devices, defaultIndex, index, true).Some?
      ensures deviceIndex == (if ok then Resolve(devices, defaultIndex, index, true).value else old(deviceIndex))
    {
      var i := if index == -1 then defaultIndex else index;
      if 0 <= i < |devices| && devices[i].maxOutputChannels > 0 {
        deviceIndex := i;
        return true;
      }
      return false;
    }

    /**
     * `set_output_device_by_name`: the first choice whose display name
     * contains `part` is selected, and that may be the leading "默认设备"
     * choice; with no match nothing changes.
     */
    method SetOutputDeviceByName(part: string, devices: seq<DeviceInfo>, defaultIndex: int) returns (r: Res<()>)
      modifies this
      ensures r.Err? <==> Choices(devices, defaultIndex).Err?
      ensures r.Err? ==> deviceIndex == old(deviceIndex)
      ensures r.Ok? ==> var cs := Choices(devices, defaultIndex).value; var f := FirstContaining(Labels(cs), part);
        deviceIndex == if f.Some? && Resolve(devices, defaultIndex, cs[f.value].index, true).Some?
                       then Resolve(devices, defaultIndex, cs[f.value].index, true).value else old(deviceIndex)
    {
      var listed := GetOutputDevices(devices, defaultIndex);
      if listed.Err? {
        return Err(listed.error);
      }
      var cs := listed.value;
      var f := FindChoice(cs, part);
      if f.Some? {
        var ok := SetOutputDevice(cs[f.value].index, devices, defaultIndex);
      }
      return Ok(());
    }
  }

  /** The default choice matches "默认": by that name the player re-selects the default device. */
  lemma DefaultChoiceMatches(devices: seq<DeviceInfo>, defaultIndex: int)
    requires Choices(devices, defaultIndex).Ok?
    ensures FirstContaining(Labels(Choices(devices, defaultIndex).value), "默认") == Some(0)
  {
    var cs := Choices(devices, defaultIndex).value;
    assert Labels(cs)[0] == DefaultLabel;
    assert DefaultLabel[0..] == DefaultLabel && DefaultLabel[..2] == "默认";
  }

  /** The position of the first occurrence of `x`, as `list.index(x)` finds it. */
  function FirstIndex(s: seq<string>, x: string): (i: nat)
    requires x in s
    ensures i < |s| && s[i] == x && x !in s[..i]
  {
    if s[0] == x then 0
    else
      var j := FirstIndex(s[1..], x);
      assert s[..j + 1] == [s[0]] + s[1..][..j];
      j + 1
  }

  /** `list.remove(x)`: drop the first occurrence of `x`. */
  function RemoveFirst(s: seq<string>, x: string): (r: seq<string>)
    requires x in s
    ensures |r| == |s| - 1
    ensures multiset(r) == multiset(s) - multiset{x}
  {
    assert s == [s[0]] + s[1..];
    if s[0] == x then s[1..] else [s[0]] + RemoveFirst(s[1..], x)
  }

  /** The element removed is the first occurrence, and the others keep their order. */
  lemma {:induction false} RemoveFirstAt(s: seq<string>, x: string)
    requires x in s
    ensures RemoveFirst(s, x) == s[..FirstIndex(s, x)] + s[FirstIndex(s, x) + 1..]
    decreases |s|
  {
    if s[0] == x {
      assert s[..0] + s[1..] == s[1..];
    } else {
      var t := s[1..];
      RemoveFirstAt(t, x);
      SkipAfterHead(s, FirstIndex(t, x));
    }
  }

  /** Dropping position `j + 1` of `s` keeps the head and drops position `j` of the tail. */
  lemma SkipAfterHead(s: seq<string>, j: nat)
    requires j + 1 < |s|
    ensures [s[0]] + (s[1..][..j] + s[1..][j + 1..]) == s[..j + 1] + s[j + 2..]
  {
    assert s[..j + 1] == [s[0]] + s[1..][..j];
    assert s[j + 2..] == s[1..][j + 1..];
  }

  /**
   * The module's temporary-file list, and the files that exist on disk.
   * Deleting a file can fail; which files fail is an input.
   */
  class TempFiles {
    var files: seq<string>
    var existing: set<string>

    constructor(existing: set<string>)
      ensures files == [] && this.existing == existing
    {
      files := [];
      this.existing := existing;
    }

    /**
     * `cleanup_temp_file`: an existing file is deleted and then its first
     * entry, if any, leaves the list; a missing file changes nothing, and a
     * failed deletion is logged and changes nothing.
     */
    method CleanupTempFile(path: Option<string>, unlinkFails: bool)
      modifies this
      ensures path.None? || path.value !in old(existing) || unlinkFails ==>
        files == old(files) && existing == old(existing)
      ensures path.Some? && path.value in old(existing) && !unlinkFails ==>
        existing == old(existing) - {path.value} &&
        files == if path.value in old(files) then RemoveFirst(old(files), path.value) else old(files)
    {
      if path.Some? && path.value in existing {
        if unlinkFails {
          return;
        }
        existing := existing - {path.value};
        if path.value in files {
          files := RemoveFirst(files, path.value);
        }
      }
    }

    /**
     * `cleanup_all_temp_files`: clean every entry of a copy of the list.
     * Every listed file that existed and could be deleted is gone, and
     * exactly one entry for it left the list (a second entry for the same
     * file finds it already deleted and stays).
     */
    method CleanupAll(failing: set<string>)
      modifies this
      ensures existing == old(existing) - CleanedBy(old(files), old(existing), failing)
      ensures multiset(files) == multiset(old(files)) - multiset(CleanedBy(old(files), old(existing), failing))
    {
      var snapshot := files;
      ghost var existing0 := existing;
      ghost var done: set<string> := {};
      for i := 0 to |snapshot|
        invariant done == CleanedBy(snapshot[..i], existing0, failing)
        invariant existing == existing0 - done
        invariant multiset(files) == multiset(snapshot) - multiset(done)
      {
        var f := snapshot[i];
        CleanedByStep(snapshot, i, existing0, failing);
        if f in existing && f !in failing {
          CleanedFileListed(snapshot, i, done, files);
          RemoveStep(files, snapshot, done, f);
          CleanupTempFile(Some(f), false);
          done := done + {f};
        } else {
          CleanupTempFile(Some(f), f in failing);
        }
      }
      assert snapshot[..|snapshot|] == snapshot;
    }
  }

  lemma CleanedByStep(snapshot: seq<string>, i: nat, existing: set<string>, failing: set<string>)
    requires i < |snapshot|
    ensures CleanedBy(snapshot[..i + 1], existing, failing) ==
      CleanedBy(snapshot[..i], existing, failing) + (if snapshot[i] in existing && snapshot[i] !in failing then {snapshot[i]} else {})
  {
    assert snapshot[..i + 1][..i] == snapshot[..i];
  }

  /** Removing one entry of a file not yet cleaned keeps the list's contents in step with the cleaned set. */
  lemma RemoveStep(files: seq<string>, snapshot: seq<string>, done: set<string>, f: string)
    requires f in files && f !in done
    requires multiset(files) == multiset(snapshot) - multiset(done)
    ensures multiset(RemoveFirst(files, f)) == multiset(snapshot) - multiset(done + {f})
  {
    assert multiset(done + {f}) == multiset(done) + multiset{f};
    var a, b, c := multiset(snapshot), multiset(done), multiset{f};
    assert forall x :: ((a - b) - c)[x] == (a - (b + c))[x];
  }

  /** A listed file not yet cleaned still has an entry in the list. */
  lemma CleanedFileListed(snapshot: seq<string>, i: nat, done: set<string>, files: seq<string>)
    requires i < |snapshot| && snapshot[i] !in done
    requires multiset(files) == multiset(snapshot) - multiset(done)
    ensures snapshot[i] in files
  {
    assert snapshot[i] in multiset(snapshot);
    assert multiset(files)[snapshot[i]] == multiset(snapshot)[snapshot[i]];
  }

  /** The files that a cleanup over `listed` deletes: those listed that exist and do not fail. */
  function CleanedBy(listed: seq<string>, existing: set<string>, failing: set<string>): set<string> {
    if listed == [] then {}
    else
      var f := listed[|listed| - 1];
      CleanedBy(listed[..|listed| - 1], existing, failing) + (if f in existing && f !in failing then {f} else {})
  }

  lemma {:induction false} CleanedBySpec(listed: seq<string>, existing: set<string>, failing: set<string>)
    ensures forall f :: f in CleanedBy(listed, existing, failing) <==> f in listed && f in existing && f !in failing
  {
    if listed != [] {
      CleanedBySpec(listed[..|listed| - 1], existing, failing);
      assert listed == listed[..|listed| - 1] + [listed[|listed| - 1]];
    }
  }

  /** `{"index", "name", "is_default"}` of the audio player's device list. */
  datatype DeviceEntry = DeviceEntry(index: int, name: string, isDefault: bool)

  /** The audio player's entries for `devices[..n]`. */
  function Entries(devices: seq<DeviceInfo>, current: int, n: nat): seq<DeviceEntry>
    requires n <= |devices|
  {
    if n == 0 then []
    else
      Entries(devices, current, n - 1) +
        (if CanOutput(devices[n - 1]) then [DeviceEntry(n - 1, devices[n - 1].name, n - 1 == current)] else [])
  }

  /** Every output-capable device appears once, in index order, flagged exactly when it is the selected one. */
  lemma {:induction false} EntriesSpec(devices: seq<DeviceInfo>, current: int, n: nat)
    requires n <= |devices|
    ensures forall e :: e in Entries(devices, current, n) <==>
      0 <= e.index < n && CanOutput(devices[e.index]) && e.name == devices[e.index].name && e.isDefault == (e.index == current)
    ensures forall a, b :: 0 <= a < b < |Entries(devices, current, n)| ==>
      Entries(devices, current, n)[a].index < Entries(devices, current, n)[b].index
  {
    if n > 0 {
      EntriesSpec(devices, current, n - 1);
    }
  }

  /** The PyAudio-based audio player. */
  class AudioPlayer {
    var deviceIndex: int

    constructor(defaultIndex: int)
      ensures deviceIndex == defaultIndex
    {
      deviceIndex := defaultIndex;
    }

    /** `get_output_devices`: every output-capable device, with `is_default` for the selected one. */
    method GetOutputDevices(devices: seq<DeviceInfo>) returns (r: seq<DeviceEntry>)
      ensures r == Entries(devices, deviceIndex, |devices|)
    {
      r := [];
      for i := 0 to |devices|
        invariant r == Entries(devices, deviceIndex, i)
      {
        var info := devices[i];
        if info.maxOutputChannels > 0 {
          r := r + [DeviceEntry(i, info.name, i == deviceIndex)];
        }
      }
    }

    /** `set_output_device`: no -1 mapping; only an existing output-capable device is selected. */
    method SetOutputDevice(index: int, devices: seq<DeviceInfo>) returns (ok: bool)
      modifies this
      ensures ok == (0 <= index < |devices| && CanOutput(devices[index]))
      ensures ok == Resolve(devices, -1, index, false).Some?
      ensures deviceIndex == (if ok then index else old(deviceIndex))
    {
      if 0 <= index < |devices| && devices[index].maxOutputChannels > 0 {
        deviceIndex := index;
        return true;
      }
      return false;
    }

    /**
     * `play_from_text`: post `str(text)` with format "wav" and the given
     * arguments; a non-2xx reply raises before anything plays; otherwise the
     * decoded `frames` of the reply are written in chunks and the reply's
     * content is returned.  The device may raise OSError on the write of
     * chunk `failAt`, which leaves the chunks before it written and
     * propagates.
     */
    method PlayFromText(url: string, text: string, params: FishSpeech.Params, reply: Response, frames: Bytes, failAt: Option<nat>)
      returns (sent: FishSpeech.Request, writes: seq<Bytes>, r: Res<Bytes>)
      ensures sent == FishSpeech.Request(url, FishSpeech.Payload(text, "wav", params))
      ensures RaiseForStatus(reply).Err? ==> r == RaiseForStatus(reply) && writes == []
      ensures forall k :: 0 <= k < |writes| ==> 0 < |writes[k]| <= Chunk
      ensures RaiseForStatus(reply).Ok? && !WriteFails(frames, failAt) ==> r == RaiseForStatus(reply) && Concat(writes) == frames
      ensures RaiseForStatus(reply).Ok? && WriteFails(frames, failAt) ==>
        r == Err(OSError) && |writes| == failAt.value && Concat(writes) == frames[..failAt.value * Chunk]
    {
      sent := FishSpeech.Request(url, FishSpeech.Payload(text, "wav", params));
      r := RaiseForStatus(reply);
      if r.Err? {
        return sent, [], r;
      }
      var raised;
      writes, raised := WriteChunks(frames, failAt);
      if raised {
        r := Err(OSError);
      }
    }
  }
}
