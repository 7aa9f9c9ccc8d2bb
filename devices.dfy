/**
 * The audio device table as the players see it.  The host audio library
 * is replaced by a plain table of devices, each with its name, the name
 * of its host API and its number of output channels; the library's
 * default output device is an index into that table.
 */
module Devices {
  import opened Wrappers
  import opened PyStr

  datatype DeviceInfo = DeviceInfo(name: string, hostApi: string, maxOutputChannels: int)

  /** `s[i]` on a Python list: negative indices count from the end; out of range is None (an IndexError). */
  function PyAt<T>(s: seq<T>, i: int): (r: Option<T>)
    ensures 0 <= i < |s| ==> r == Some(s[i])
    ensures -|s| <= i < 0 ==> r == Some(s[|s| + i])
    ensures r.None? <==> !(-|s| <= i < |s|)
  {
    if 0 <= i < |s| then Some(s[i]) else if -|s| <= i < 0 then Some(s[|s| + i]) else None
  }

  /** Whether a device can play: it has at least one output channel. */
  predicate CanOutput(d: DeviceInfo) {
    d.maxOutputChannels > 0
  }

  /**
   * The device index a `set_output_device(index)` call settles on, if any:
   * -1 means the default output device when `mapDefault` holds; the device
   * must exist in the table (looking up any other index raises, which the
   * caller catches) and must have an output channel.
   */
  function Resolve(devices: seq<DeviceInfo>, defaultIndex: int, index: int, mapDefault: bool): (r: Option<int>)
    ensures r.Some? <==> (var i := if mapDefault && index == -1 then defaultIndex else index;
                          0 <= i < |devices| && CanOutput(devices[i]))
    ensures r.Some? ==> r.value == (if mapDefault && index == -1 then defaultIndex else index)
  {
    var i := if mapDefault && index == -1 then defaultIndex else index;
    if 0 <= i < |devices| && CanOutput(devices[i]) then Some(i) else None
  }

  /** The position of the first name in `names` that contains `part`. */
  function FirstContaining(names: seq<string>, part: string): (r: Option<nat>)
    ensures r.Some? ==> r.value < |names| && Contains(names[r.value], part)
    ensures r.Some? ==> forall j :: 0 <= j < r.value ==> !Contains(names[j], part)
    ensures r.None? ==> forall j :: 0 <= j < |names| ==> !Contains(names[j], part)
  {
    if names == [] then None
    else if Contains(names[0], part) then Some(0)
    else
      var rest := FirstContaining(names[1..], part);
      if rest.Some? then Some(rest.value + 1) else None
  }

  /** The first index that matches is the one found. */
  lemma {:induction false} FirstContainingAt(names: seq<string>, part: string, k: nat)
    requires k < |names| && Contains(names[k], part)
    requires forall j :: 0 <= j < k ==> !Contains(names[j], part)
    ensures FirstContaining(names, part) == Some(k)
  {
    var r := FirstContaining(names, part);
    assert r.Some?;
    assert !(r.value < k);
    assert !(r.value > k);
  }

  /** With no match nothing is found. */
  lemma FirstContainingNone(names: seq<string>, part: string)
    requires forall j :: 0 <= j < |names| ==> !Contains(names[j], part)
    ensures FirstContaining(names, part) == None
  {
  }
}
