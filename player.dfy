/**
 * The playback queue and output-device selection of the current player.
 *
 * Audio clips are queued first in, first out and played by one background
 * worker.  The worker's loop is driven explicitly: each `WorkerStep` is one
 * iteration, taking the oldest clip and playing it (or failing on it).
 * Decoding the WAV container is outside the model; a step is given the
 * clip's raw frames, or None when decoding or the device fails.
 */
module Playback {
  import opened Wrappers
  import opened PyStr
  import opened Bytes
  import opened Devices
  import opened JsonValue

  /** `OutputDevice(index, name)`. */
  datatype OutputDevice = OutputDevice(index: int, name: string)

  /** A background task handle. */
  datatype Task = Task(id: nat)

  /** The devices `get_output_devices` keeps among `devices[..n]`: output-capable ones on the default host API. */
  function Listed(devices: seq<DeviceInfo>, defaultApi: string, n: nat): (r: seq<OutputDevice>)
    requires n <= |devices|
  {
    if n == 0 then []
    else
      var d := devices[n - 1];
      Listed(devices, defaultApi, n - 1) + (if CanOutput(d) && Contains(d.hostApi, defaultApi) then [OutputDevice(n - 1, d.name)] else [])
  }

  /**
   * What `get_output_devices` lists: exactly the output-capable devices whose
   * host API name contains the default device's, each once, in index order.
   */
  lemma {:induction false} ListedSpec(devices: seq<DeviceInfo>, defaultApi: string, n: nat)
    requires n <= |devices|
    ensures forall o :: o in Listed(devices, defaultApi, n) <==>
      0 <= o.index < n && o.name == devices[o.index].name &&
      CanOutput(devices[o.index]) && Contains(devices[o.index].hostApi, defaultApi)
    ensures forall a, b :: 0 <= a < b < |Listed(devices, defaultApi, n)| ==>
      Listed(devices, defaultApi, n)[a].index < Listed(devices, defaultApi, n)[b].index
  {
    if n > 0 {
      ListedSpec(devices, defaultApi, n - 1);
    }
  }

  /** `get_output_devices` as a function of the device table and the default output index. */
  function OutputDevices(devices: seq<DeviceInfo>, defaultIndex: int): Result<seq<OutputDevice>, PyError> {
    if |devices| == 0 then Err(RuntimeError("没有找到输出设备"))
    else
      var d := PyAt(devices, defaultIndex);
      if d.None? then Err(IndexError) else Ok(Listed(devices, d.value.hostApi, |devices|))
  }

  function Names(ds: seq<OutputDevice>): (r: seq<string>)
    ensures |r| == |ds| && forall i :: 0 <= i < |ds| ==> r[i] == ds[i].name
  {
    if ds == [] then [] else [ds[0].name] + Names(ds[1..])
  }

  /**
   * The device index `set_output_device_by_name(part)` ends on: that of the
   * first listed device whose name contains `part` (see `FirstContaining`),
   * or `current` when none does.
   */
  function ByName(ds: seq<OutputDevice>, part: string, current: int): int {
    var f := FirstContaining(Names(ds), part);
    if f.Some? then ds[f.value].index else current
  }

  /** The search loop of `set_output_device_by_name`: the position of the first listed device whose name contains `part`. */
  method FindByName(ds: seq<OutputDevice>, part: string) returns (f: Option<nat>)
    ensures f == FirstContaining(Names(ds), part)
  {
    ghost var names := Names(ds);
    var i := 0;
    while i < |ds|
      invariant 0 <= i <= |ds|
      invariant forall j :: 0 <= j < i ==> !Contains(names[j], part)
    {
      if Contains(ds[i].name, part) {
        assert names[i] == ds[i].name;
        FirstContainingAt(names, part, i);
        return Some(i);
      }
      i := i + 1;
    }
    FirstContainingNone(names, part);
    return None;
  }

  class StreamPlayer {
    var deviceIndex: int
    var queue: seq<Bytes>
    var workerTask: Option<Task>
    var isRunning: bool
    /** Tasks that have been cancelled. */
    var cancelled: set<nat>
    var nextTaskId: nat
    /** Every `stream.write` of every clip played so far, in order. */
    var written: seq<Bytes>
    /** Clips whose playback failed; each was logged and skipped. */
    var failed: seq<Bytes>
    /** Every clip ever queued, in order, and those taken off the queue, in order. */
    ghost var enqueued: seq<Bytes>
    ghost var taken: seq<Bytes>

    /** The queue is first in, first out: what was taken, then what waits, is what was queued. */
    ghost predicate Valid()
      reads this
    {
      taken + queue == enqueued &&
      (workerTask.Some? ==> workerTask.value.id < nextTaskId) &&
      (forall id :: id in cancelled ==> id < nextTaskId)
    }

    /** A fresh player on the library's default output device, with an empty queue and no worker. */
    constructor(defaultIndex: int)
      ensures Valid()
      ensures deviceIndex == defaultIndex && queue == [] && workerTask == None && !isRunning
      ensures cancelled == {} && written == [] && failed == [] && enqueued == []
    {
      deviceIndex := defaultIndex;
      queue := [];
      workerTask := None;
      isRunning := false;
      cancelled := {};
      nextTaskId := 0;
      written := [];
      failed := [];
      enqueued := [];
      taken := [];
    }

    /** `start_worker`: only when not running, mark running and create the one worker task. */
    method StartWorker()
      requires Valid()
      modifies this
      ensures Valid()
      ensures isRunning
      ensures old(isRunning) ==> workerTask == old(workerTask) && nextTaskId == old(nextTaskId)
      ensures !old(isRunning) ==> workerTask == Some(Task(old(nextTaskId))) && nextTaskId == old(nextTaskId) + 1
      ensures queue == old(queue) && deviceIndex == old(deviceIndex) && cancelled == old(cancelled)
      ensures written == old(written) && failed == old(failed) && enqueued == old(enqueued) && taken == old(taken)
    {
      if !isRunning {
        isRunning := true;
        workerTask := Some(Task(nextTaskId));
        nextTaskId := nextTaskId + 1;
      }
    }

    /**
     * `stop_worker`: when running, clear the flag, cancel the worker and
     * discard every queued clip; when not running, do nothing.  The task
     * handle is kept.
     */
    method StopWorker()
      requires Valid()
      modifies this
      ensures Valid()
      ensures !isRunning
      ensures old(isRunning) ==> queue == [] && taken == old(taken) + old(queue)
      ensures old(isRunning) && old(workerTask).Some? ==> cancelled == old(cancelled) + {old(workerTask).value.id}
      ensures old(isRunning) && old(workerTask).None? ==> cancelled == old(cancelled)
      ensures !old(isRunning) ==> queue == old(queue) && taken == old(taken) && cancelled == old(cancelled)
      ensures workerTask == old(workerTask) && deviceIndex == old(deviceIndex) && nextTaskId == old(nextTaskId)
      ensures written == old(written) && failed == old(failed) && enqueued == old(enqueued)
    {
      if isRunning {
        isRunning := false;
        if workerTask.Some? {
          cancelled := cancelled + {workerTask.value.id};
        }
        // Drain the queue one clip at a time.
        var q := queue;
        ghost var t := taken;
        while q != []
          invariant t + q == old(taken) + old(queue)
          decreases |q|
        {
          t := t + [q[0]];
          assert t + q[1..] == old(taken) + old(queue);
          q := q[1..];
        }
        queue := q;
        taken := t;
      }
    }

    /** `play_bytes_async`: append a clip to the end of the queue. */
    method PlayBytesAsync(audio: Bytes)
      requires Valid()
      modifies this
      ensures Valid()
      ensures queue == old(queue) + [audio] && enqueued == old(enqueued) + [audio]
      ensures isRunning == old(isRunning) && workerTask == old(workerTask) && deviceIndex == old(deviceIndex)
      ensures cancelled == old(cancelled) && nextTaskId == old(nextTaskId)
      ensures written == old(written) && failed == old(failed) && taken == old(taken)
    {
      queue := queue + [audio];
      enqueued := enqueued + [audio];
    }

    /**
     * One iteration of `_play_worker`.  While running with a clip queued, the
     * oldest clip is taken and its frames are written in chunks.  Playing it
     * can fail: before anything is written (`frames` is None, when the clip
     * does not decode or the stream does not open) or on the write of chunk
     * `failAt`, after the chunks before it are written.  A failure is logged
     * and the clip skipped; either way the worker keeps running.  With
     * nothing queued the worker waits; once not running the loop has ended.
     */
    method WorkerStep(frames: Option<Bytes>, failAt: Option<nat>)
      requires Valid()
      modifies this
      ensures Valid()
      ensures isRunning == old(isRunning) && workerTask == old(workerTask) && deviceIndex == old(deviceIndex)
      ensures cancelled == old(cancelled) && nextTaskId == old(nextTaskId) && enqueued == old(enqueued)
      ensures !old(isRunning) || old(queue) == [] ==>
        queue == old(queue) && taken == old(taken) && written == old(written) && failed == old(failed)
      ensures old(isRunning) && old(queue) != [] ==>
        queue == old(queue)[1..] && taken == old(taken) + [old(queue)[0]]
      ensures old(isRunning) && old(queue) != [] && frames.None? ==>
        failed == old(failed) + [old(queue)[0]] && written == old(written)
      ensures old(isRunning) && old(queue) != [] && frames.Some? ==>
        |old(written)| <= |written| && written[..|old(written)|] == old(written)
      ensures old(isRunning) && old(queue) != [] && frames.Some? && !WriteFails(frames.value, failAt) ==>
        failed == old(failed) && Concat(written[|old(written)|..]) == frames.value
      ensures old(isRunning) && old(queue) != [] && frames.Some? && WriteFails(frames.value, failAt) ==>
        failed == old(failed) + [old(queue)[0]] && |written| - |old(written)| == failAt.value &&
        Concat(written[|old(written)|..]) == frames.value[..failAt.value * Chunk]
    {
      if !isRunning || queue == [] {
        return;
      }
      var audio := queue[0];
      queue := queue[1..];
      taken := taken + [audio];
      if frames.None? {
        failed := failed + [audio];
      } else {
        var writes, raised := WriteChunks(frames.value, failAt);
        written := written + writes;
        assert written[|old(written)|..] == writes;
        if raised {
          failed := failed + [audio];
        }
      }
    }

    /** `get_output_devices`: the device table filtered to the default host API, in index order. */
    method GetOutputDevices(devices: seq<DeviceInfo>, defaultIndex: int) returns (r: Result<seq<OutputDevice>, PyError>)
      ensures r == OutputDevices(devices, defaultIndex)
      ensures |devices| == 0 ==> r == Err(RuntimeError("没有找到输出设备"))
      ensures r.Ok? ==> forall o :: o in r.value ==> 0 <= o.index < |devices| && CanOutput(devices[o.index])
    {
      if |devices| == 0 {
        return Err(RuntimeError("没有找到输出设备"));
      }
      var default := PyAt(devices, defaultIndex);
      if default.None? {
        return Err(IndexError);
      }
      var defaultApi := default.value.hostApi;
      var choices: seq<OutputDevice> := [];
      var idx := 0;
      while idx < |devices|
        invariant 0 <= idx <= |devices|
        invariant choices == Listed(devices, defaultApi, idx)
      {
        var device := devices[idx];
        if device.maxOutputChannels > 0 && Contains(device.hostApi, defaultApi) {
          choices := choices + [OutputDevice(idx, device.name)];
        }
        idx := idx + 1;
      }
      ListedSpec(devices, defaultApi, |devices|);
      return Ok(choices);
    }

    /**
     * `set_output_device`: -1 means the default device; the index changes
     * only to an existing output-capable device, and the result says
     * whether it did.
     */
    method SetOutputDevice(index: int, devices: seq<DeviceInfo>, defaultIndex: int) returns (ok: bool)
      modifies this
      ensures ok == Resolve(devices, defaultIndex, index, true).Some?
      ensures ok ==> deviceIndex == Resolve(devices, defaultIndex, index, true).value
      ensures !ok ==> deviceIndex == old(deviceIndex)
      ensures queue == old(queue) && isRunning == old(isRunning) && workerTask == old(workerTask)
      ensures cancelled == old(cancelled) && nextTaskId == old(nextTaskId)
      ensures written == old(written) && failed == old(failed) && enqueued == old(enqueued) && taken == old(taken)
    {
      var i := index;
      if i == -1 {
        i := defaultIndex;
      }
      if !(0 <= i < |devices|) {
        // Looking up a missing device raises; the exception is logged.
        return false;
      }
      if devices[i].maxOutputChannels > 0 {
        deviceIndex := i;
        return true;
      }
      return false;
    }

    /**
     * `set_output_device_by_name`: select the first listed device whose name
     * contains `part`; with no match the device is unchanged.  Listing the
     * devices can raise, and then so does this.
     */
    method SetOutputDeviceByName(part: string, devices: seq<DeviceInfo>, defaultIndex: int) returns (r: Result<(), PyError>)
      modifies this
      ensures r.Err? <==> OutputDevices(devices, defaultIndex).Err?
      ensures r.Err? ==> deviceIndex == old(deviceIndex)
      ensures r.Ok? ==> deviceIndex == ByName(OutputDevices(devices, defaultIndex).value, part, old(deviceIndex))
      ensures queue == old(queue) && isRunning == old(isRunning) && workerTask == old(workerTask)
      ensures cancelled == old(cancelled) && nextTaskId == old(nextTaskId)
      ensures written == old(written) && failed == old(failed) && enqueued == old(enqueued) && taken == old(taken)
    {
      var listed := GetOutputDevices(devices, defaultIndex);
      if listed.Err? {
        return Err(listed.error);
      }
      var ds := listed.value;
      var f := FindByName(ds, part);
      if f.Some? {
        assert ds[f.value] in ds;
        var ok := SetOutputDevice(ds[f.value].index, devices, defaultIndex);
      }
      return Ok(());
    }
  }
}
