/**
 * The configuration validators and the voice-list query of the Minimax
 * settings.
 *
 * A validator has two halves: `validate` tells whether a stored value is
 * acceptable, and `correct` replaces an unacceptable one.  Stored values are
 * JSON values.  The output-device validator reads the device table again
 * on every check, so the table is a parameter of each of its operations.
 */
module ConfigValidators {
  import opened Wrappers
  import opened PyStr
  import opened JsonValue
  import opened Devices
  import opened Playback
  import Http

  // ------------------------------------------------------------ dictionaries

  /** `DictValidator.validate`: `isinstance(value, dict)`. */
  predicate DictValid(value: Json) {
    value.Obj?
  }

  /** `DictValidator.correct`: a dict as it is, anything else `{}`. */
  function DictCorrect(value: Json): (r: Json)
    ensures DictValid(r)
    ensures DictValid(value) ==> r == value
    ensures !DictValid(value) ==> r == Obj([])
  {
    if value.Obj? then value else Obj([])
  }

  /** Correcting twice is correcting once. */
  lemma DictCorrectIdempotent(value: Json)
    ensures DictCorrect(DictCorrect(value)) == DictCorrect(value)
  {
  }

  // ------------------------------------------------------------ integers

  /** `IntValidator.validate`: `isinstance(value, int)`, which a bool also passes. */
  predicate IntValid(value: Json) {
    value.Int? || value.Bool?
  }

  /**
   * `IntValidator.correct`: `int(value)`, and 0 when the conversion raises
   * ValueError or TypeError.  A bool becomes 0 or 1, a numeric string its
   * value.
   */
  function IntCorrect(value: Json): (r: Json)
    ensures r.Int?
    ensures ToInt(value).Ok? ==> r == Int(ToInt(value).value)
    ensures ToInt(value).Err? ==> r == Int(0)
  {
    var n := ToInt(value);
    if n.Ok? then Int(n.value) else Int(0)
  }

  /** The output of `correct` always passes `validate`. */
  lemma IntCorrectValid(value: Json)
    ensures IntValid(IntCorrect(value))
  {
  }

  /** An int is kept, and correcting is idempotent. */
  lemma IntCorrectKeepsInts(value: Json)
    ensures value.Int? ==> IntCorrect(value) == value
    ensures IntCorrect(IntCorrect(value)) == IntCorrect(value)
  {
  }

  /** Strings of decimal digits become their value; None, lists and dicts become 0. */
  lemma IntCorrectCases(value: Json)
    ensures value.Str? && IsDigits(value.s) ==> IntCorrect(value) == Int(DigitsValue(value.s))
    ensures value.Null? || value.Arr? || value.Obj? ==> IntCorrect(value) == Int(0)
    ensures value.Bool? ==> IntCorrect(value) == Int(if value.b then 1 else 0)
  {
  }

  /** Digit groups separated by an underscore, as in "1_000", become the number without it. */
  lemma IntCorrectUnderscores(a: string, b: string)
    requires IsDigits(a) && IsDigits(b)
    ensures IntCorrect(Str(a + "_" + b)) == Int(DigitsValue(a + b))
  {
    UnderscoreIgnored(a, b);
  }

  // ------------------------------------------------------------ output devices

  /** `[device.index for device in devices]`. */
  function Indices(ds: seq<OutputDevice>): (r: seq<int>)
    ensures |r| == |ds| && forall i :: 0 <= i < |ds| ==> r[i] == ds[i].index
  {
    if ds == [] then [] else [ds[0].index] + Indices(ds[1..])
  }

  /** The device options of the current table; it fails as `get_output_devices` does. */
  function Options(devices: seq<DeviceInfo>, defaultIndex: int): (r: Res<seq<int>>)
    ensures r.Ok? <==> OutputDevices(devices, defaultIndex).Ok?
    ensures r.Ok? ==> r.value == Indices(OutputDevices(devices, defaultIndex).value)
  {
    var ds :- OutputDevices(devices, defaultIndex);
    Ok(Indices(ds))
  }

  /** `value in options` for a list of ints: an int equal to one, or a bool equal to 0 or 1. */
  predicate InOptions(value: Json, options: seq<int>) {
    (value.Int? && value.i in options) || (value.Bool? && (if value.b then 1 else 0) in options)
  }

  /** Each option is a listed output-capable device of the table. */
  lemma OptionsAreOutputDevices(devices: seq<DeviceInfo>, defaultIndex: int, k: int)
    requires Options(devices, defaultIndex).Ok? && k in Options(devices, defaultIndex).value
    ensures 0 <= k < |devices| && CanOutput(devices[k])
  {
    var ds := OutputDevices(devices, defaultIndex).value;
    var d := PyAt(devices, defaultIndex).value;
    var opts := Indices(ds);
    var i :| 0 <= i < |opts| && opts[i] == k;
    ListedSpec(devices, d.hostApi, |devices|);
    assert ds[i] in ds;
  }

  class OutputDeviceValidator {
    /** The indices of the output devices at the last refresh. */
    var options: seq<int>

    constructor(options: seq<int>)
      ensures this.options == options
    {
      this.options := options;
    }

    /**
     * `validate`: reload the options from the device table, then test
     * membership.  When the table cannot be listed the error propagates and
     * the old options stay.
     */
    method Validate(value: Json, devices: seq<DeviceInfo>, defaultIndex: int) returns (r: Res<bool>)
      modifies this
      ensures Options(devices, defaultIndex).Err? ==> r == Err(Options(devices, defaultIndex).error) && options == old(options)
      ensures Options(devices, defaultIndex).Ok? ==> options == Options(devices, defaultIndex).value
      ensures Options(devices, defaultIndex).Ok? ==> r == Ok(InOptions(value, options))
    {
      var opts := Options(devices, defaultIndex);
      if opts.Err? {
        return Err(opts.error);
      }
      options := opts.value;
      return Ok(InOptions(value, options));
    }

    /**
     * `correct`: the value when `validate` accepts it, otherwise the first
     * of the refreshed options; with no options that is an IndexError.
     */
    method Correct(value: Json, devices: seq<DeviceInfo>, defaultIndex: int) returns (r: Res<Json>)
      modifies this
      ensures Options(devices, defaultIndex).Err? ==> r == Err(Options(devices, defaultIndex).error) && options == old(options)
      ensures Options(devices, defaultIndex).Ok? ==> options == Options(devices, defaultIndex).value
      ensures Options(devices, defaultIndex).Ok? && InOptions(value, options) ==> r == Ok(value)
      ensures Options(devices, defaultIndex).Ok? && !InOptions(value, options) && options != [] ==> r == Ok(Int(options[0]))
      ensures Options(devices, defaultIndex).Ok? && !InOptions(value, options) && options == [] ==> r == Err(IndexError)
      ensures r.Ok? ==> InOptions(r.value, options)
    {
      var valid := Validate(value, devices, defaultIndex);
      if valid.Err? {
        return Err(valid.error);
      }
      if valid.value {
        return Ok(value);
      }
      if options == [] {
        return Err(IndexError);
      }
      return Ok(Int(options[0]));
    }
  }

  /**
   * Making the validator lists the devices once; listing errors
   * propagate.
   */
  method NewOutputDeviceValidator(devices: seq<DeviceInfo>, defaultIndex: int) returns (r: Res<OutputDeviceValidator>)
    ensures Options(devices, defaultIndex).Err? ==> r == Err(Options(devices, defaultIndex).error)
    ensures Options(devices, defaultIndex).Ok? ==> r.Ok? && fresh(r.value) && r.value.options == Options(devices, defaultIndex).value
  {
    var opts := Options(devices, defaultIndex);
    if opts.Err? {
      return Err(opts.error);
    }
    var v := new OutputDeviceValidator(opts.value);
    return Ok(v);
  }

  // ------------------------------------------------------------ voices

  /** The entry shown when no voice list could be read. */
  const ErrorVoiceId: string := "未获取到音色列表，请检查API 密钥，然后刷新"

  /** The reply to the voice query: its status and its body as JSON (None when it is not JSON). */
  datatype VoiceReply = VoiceReply(status: int, body: Option<Json>)

  /** `voice["voice_id"]` of each voice, in order; the first failing subscript decides the error. */
  function VoiceIds(voices: seq<Json>): (r: Res<seq<Json>>)
    ensures r.Ok? ==> |r.value| == |voices| && forall i :: 0 <= i < |voices| ==> Key(voices[i], "voice_id") == Ok(r.value[i])
    ensures r.Err? ==> exists i :: 0 <= i < |voices| && Key(voices[i], "voice_id") == Err(r.error)
  {
    if voices == [] then Ok([])
    else
      var id :- Key(voices[0], "voice_id");
      var rest :- VoiceIds(voices[1..]);
      Ok([id] + rest)
  }

  /** The voice records of a decoded reply, before the list of ids is built. */
  function VoicesOf(result: Json): (r: Res<Option<seq<Json>>>)
  {
    if !Truthy(result) then Ok(None)
    else
      var has :- In("voice_cloning", result);
      if !has then Ok(None)
      else
        var cloning :- Key(result, "voice_cloning");
        var voices :- Iter(cloning);
        Ok(Some(voices))
  }

  /**
   * `get_voices` after the post: a status error gives the single error id;
   * a body that is not JSON raises; an empty result, one without
   * `voice_cloning` or one that yields no ids gives the error id; otherwise
   * the ids in order.
   */
  function Voices(reply: VoiceReply): (r: Res<seq<Json>>)
  {
    if !Http.HttpxOk(reply.status) then Ok([Str(ErrorVoiceId)])
    else if reply.body.None? then Err(ValueError)
    else
      var voices :- VoicesOf(reply.body.value);
      if voices.None? then Ok([Str(ErrorVoiceId)])
      else
        var ids :- VoiceIds(voices.value);
        if ids == [] then Ok([Str(ErrorVoiceId)]) else Ok(ids)
  }

  /** The list `get_voices` returns is never empty. */
  lemma VoicesNeverEmpty(reply: VoiceReply)
    ensures Voices(reply).Ok? ==> Voices(reply).value != []
  {
  }

  /** A dict reply with voice records gives their ids, in order. */
  lemma VoicesInOrder(status: int, voices: seq<Json>, ids: seq<string>)
    requires Http.HttpxOk(status) && |ids| == |voices| && ids != []
    requires forall i :: 0 <= i < |voices| ==> voices[i] == Obj([("voice_id", Str(ids[i]))])
    ensures Voices(VoiceReply(status, Some(Obj([("voice_cloning", Arr(voices))])))) ==
            Ok(seq(|ids|, i requires 0 <= i < |ids| => Str(ids[i])))
  {
    var r := VoiceIds(voices);
    assert r.Ok?;
    assert r.value == seq(|ids|, i requires 0 <= i < |ids| => Str(ids[i])) by {
      forall i | 0 <= i < |ids|
        ensures r.value[i] == Str(ids[i])
      {
        assert Key(voices[i], "voice_id") == Ok(Str(ids[i]));
      }
    }
  }

  /** The first voice without a `voice_id` decides the error. */
  lemma {:induction false} VoiceIdsFirstError(voices: seq<Json>, k: nat)
    requires k < |voices| && Key(voices[k], "voice_id").Err?
    requires forall j :: 0 <= j < k ==> Key(voices[j], "voice_id").Ok?
    ensures VoiceIds(voices) == Err(Key(voices[k], "voice_id").error)
    decreases k
  {
    if k > 0 {
      VoiceIdsFirstError(voices[1..], k - 1);
    }
  }

  /** The id-collecting loop of `get_voices`. */
  method CollectVoiceIds(voices: seq<Json>) returns (r: Res<seq<Json>>)
    ensures r == VoiceIds(voices)
  {
    var ret := [];
    for i := 0 to |voices|
      invariant |ret| == i
      invariant forall j :: 0 <= j < i ==> Key(voices[j], "voice_id") == Ok(ret[j])
    {
      var id := Key(voices[i], "voice_id");
      if id.Err? {
        VoiceIdsFirstError(voices, i);
        return Err(id.error);
      }
      ret := ret + [id.value];
    }
    var all := VoiceIds(voices);
    assert all.Ok?;
    assert all.value == ret;
    return Ok(ret);
  }

  /**
   * `get_voices`: the reply to the query is an input; an HTTP status error
   * is caught, every other error propagates.
   */
  method GetVoices(reply: VoiceReply) returns (r: Res<seq<Json>>)
    ensures r == Voices(reply)
    ensures r.Ok? ==> r.value != []
  {
    if !Http.HttpxOk(reply.status) {
      return Ok([Str(ErrorVoiceId)]);
    }
    if reply.body.None? {
      return Err(ValueError);
    }
    var voices := VoicesOf(reply.body.value);
    if voices.Err? {
      return Err(voices.error);
    }
    if voices.value.None? {
      return Ok([Str(ErrorVoiceId)]);
    }
    var ids := CollectVoiceIds(voices.value.value);
    if ids.Err? {
      return Err(ids.error);
    }
    if ids.value == [] {
      return Ok([Str(ErrorVoiceId)]);
    }
    return ids;
  }
}
