/**
 * The Minimax speech service: it builds the synthesis request (model,
 * voice settings and the alias pronunciation list), posts it with one
 * reusable HTTP client, and decodes the audio, which the reply carries as
 * base16 text (section 8 of RFC 4648), with `bytes.fromhex`.
 *
 * The HTTP client is an object whose closed flag other code may set; the
 * reply to the post is an input.
 */
module Minimax {
  import opened Wrappers
  import opened PyStr
  import opened JsonValue
  import opened Bytes
  import PyDict
  import Http

  // ------------------------------------------------------------ base16

  predicate IsHexDigit(c: char) {
    ('0' <= c <= '9') || ('a' <= c <= 'f') || ('A' <= c <= 'F')
  }

  /** The ASCII white space `bytes.fromhex` skips between byte pairs. */
  predicate IsHexSpace(c: char) {
    c == ' ' || c == '\t' || c == '\n' || c == '\U{b}' || c == '\U{c}' || c == '\r'
  }

  function HexValue(c: char): (v: nat)
    requires IsHexDigit(c)
    ensures v < 16
  {
    if '0' <= c <= '9' then c as int - '0' as int
    else if 'a' <= c <= 'f' then c as int - 'a' as int + 10
    else c as int - 'A' as int + 10
  }

  /**
   * `bytes.fromhex(s)`: white space may come before any byte pair; every
   * byte is two hex digits of either case, high digit first; anything
   * else, and an unpaired digit, raises ValueError.
   */
  function FromHex(s: string): (r: Res<Bytes>)
    ensures r.Ok? && (forall i :: 0 <= i < |s| ==> !IsHexSpace(s[i])) ==> |s| == 2 * |r.value|
    ensures r.Err? ==> r.error == ValueError
    decreases |s|
  {
    if s == [] then Ok([])
    else if IsHexSpace(s[0]) then FromHex(s[1..])
    else if |s| >= 2 && IsHexDigit(s[0]) && IsHexDigit(s[1]) then
      var rest :- FromHex(s[2..]);
      Ok([(HexValue(s[0]) * 16 + HexValue(s[1])) as byte] + rest)
    else Err(ValueError)
  }

  /** A character that is neither a hex digit nor white space makes the decoding fail. */
  lemma {:induction false} InvalidDigitRejected(s: string, i: nat)
    requires i < |s| && !IsHexDigit(s[i]) && !IsHexSpace(s[i])
    ensures FromHex(s).Err?
    decreases |s|
  {
    if IsHexSpace(s[0]) {
      InvalidDigitRejected(s[1..], i - 1);
    } else if |s| >= 2 && IsHexDigit(s[0]) && IsHexDigit(s[1]) {
      InvalidDigitRejected(s[2..], i - 2);
    }
  }

  /** Text without white space and of odd length has an unpaired digit. */
  lemma {:induction false} OddLengthRejected(s: string)
    requires |s| % 2 == 1 && forall i :: 0 <= i < |s| ==> !IsHexSpace(s[i])
    ensures FromHex(s).Err?
    decreases |s|
  {
    assert !IsHexSpace(s[0]);
    if |s| >= 2 && IsHexDigit(s[0]) && IsHexDigit(s[1]) {
      var t := s[2..];
      assert forall i :: 0 <= i < |t| ==> t[i] == s[i + 2];
      OddLengthRejected(t);
    }
  }

  function LowerHexDigit(d: nat): (c: char)
    requires d < 16
    ensures IsHexDigit(c) && !IsHexSpace(c) && HexValue(c) == d
  {
    if d < 10 then ('0' as int + d) as char else ('a' as int + d - 10) as char
  }

  function UpperHexDigit(d: nat): (c: char)
    requires d < 16
    ensures IsHexDigit(c) && !IsHexSpace(c) && HexValue(c) == d
  {
    if d < 10 then ('0' as int + d) as char else ('A' as int + d - 10) as char
  }

  /** The base16 text of `bs`, two digits per byte, in lower or upper case. */
  function ToHex(bs: Bytes, upper: bool): (s: string)
    ensures |s| == 2 * |bs|
  {
    if bs == [] then []
    else
      var hi, lo := bs[0] as int / 16, bs[0] as int % 16;
      (if upper then [UpperHexDigit(hi), UpperHexDigit(lo)] else [LowerHexDigit(hi), LowerHexDigit(lo)]) + ToHex(bs[1..], upper)
  }

  /** Decoding the base16 text of any bytes, in either case, gives them back. */
  lemma {:induction false} FromHexRoundTrip(bs: Bytes, upper: bool)
    ensures FromHex(ToHex(bs, upper)) == Ok(bs)
  {
    if bs != [] {
      var s := ToHex(bs, upper);
      FromHexRoundTrip(bs[1..], upper);
      assert s[2..] == ToHex(bs[1..], upper);
      assert [bs[0]] + bs[1..] == bs;
    }
  }

  // ------------------------------------------------------------ the request

  /** The pronunciation list: one "key/value" entry per alias, in map order. */
  function Tones(alias: PyDict.Dict<string, string>): (r: seq<string>)
    ensures |r| == |alias|
  {
    seq(|alias|, i requires 0 <= i < |alias| => alias[i].0 + "/" + alias[i].1)
  }

  /** The text before the first `c`, and what follows it. */
  function SplitFirst(s: string, c: char): (string, string)
  {
    if s == [] then ([], [])
    else if s[0] == c then ([], s[1..])
    else var (a, b) := SplitFirst(s[1..], c); ([s[0]] + a, b)
  }

  lemma {:induction false} SplitFirstOf(k: string, v: string)
    requires '/' !in k
    ensures SplitFirst(k + "/" + v, '/') == (k, v)
  {
    if k != [] {
      assert (k + "/" + v)[1..] == k[1..] + "/" + v;
      SplitFirstOf(k[1..], v);
      assert [k[0]] + k[1..] == k;
    } else {
      assert k + "/" + v == ['/'] + v;
    }
  }

  /** An alias whose text has no "/" is read back from its entry by splitting at the first "/". */
  lemma ToneRoundTrip(alias: PyDict.Dict<string, string>, i: nat)
    requires i < |alias| && '/' !in alias[i].0
    ensures SplitFirst(Tones(alias)[i], '/') == alias[i]
  {
    SplitFirstOf(alias[i].0, alias[i].1);
  }

  datatype VoiceSetting = VoiceSetting(voiceId: string, speed: real, vol: real, pitch: int)

  /** The request body; the fields the code leaves at their defaults carry those. */
  datatype TtsRequest = TtsRequest(model: string, text: string, stream: bool, languageBoost: string,
                                   outputFormat: string, voiceSetting: VoiceSetting, tone: seq<string>)

  datatype Post = Post(url: string, body: TtsRequest, headers: seq<(string, string)>)

  function Headers(apiKey: string): seq<(string, string)> {
    [("Authorization", "Bearer " + apiKey), ("Content-Type", "application/json")]
  }

  /** The loop that builds the pronunciation list. */
  method AliasTexts(alias: PyDict.Dict<string, string>) returns (r: seq<string>)
    ensures r == Tones(alias)
  {
    r := [];
    for i := 0 to |alias|
      invariant r == Tones(alias[..i])
    {
      assert Tones(alias[..i + 1]) == Tones(alias[..i]) + [alias[i].0 + "/" + alias[i].1];
      r := r + [alias[i].0 + "/" + alias[i].1];
    }
    assert alias[..|alias|] == alias;
  }

  // ------------------------------------------------------------ the reply

  /** The reply: its status and its body decoded as JSON (None when it is not JSON). */
  datatype Reply = Reply(status: int, body: Option<Json>)

  /** Field `k` of a dict as pydantic reads it: None when the key is absent. */
  function FieldOf(obj: Json, k: string): Json
    requires obj.Obj?
  {
    Get(obj, k, Null).value
  }

  /** pydantic's lax `int`: an int, a bool, or a string that reads as an integer. */
  predicate LaxInt(j: Json) {
    j.Int? || j.Bool? || (j.Str? && ParseInt(j.s).Some?)
  }

  /** `Optional[str]`. */
  predicate OptStr(j: Json) {
    j.Null? || j.Str?
  }

  /** `Optional[int]` and, JSON here having no floats, `Optional[float]`. */
  predicate OptLaxInt(j: Json) {
    j.Null? || LaxInt(j)
  }

  /** `Optional[ExtraInfo]`: None, or a dict whose five numeric fields validate; other keys are ignored. */
  predicate ValidExtraInfo(j: Json) {
    j.Null? ||
    (j.Obj? && OptLaxInt(FieldOf(j, "audio_length")) && OptLaxInt(FieldOf(j, "audio_size")) &&
     OptLaxInt(FieldOf(j, "audio_sample_rate")) && OptLaxInt(FieldOf(j, "audio_channels")) &&
     OptLaxInt(FieldOf(j, "bitrate")))
  }

  /** `Optional[AudioData]`: None, or a dict with a string `audio`, an integer `status` and an optional string `ced`. */
  predicate ValidAudioData(j: Json) {
    j.Null? ||
    (j.Obj? && Key(j, "audio").Ok? && Key(j, "audio").value.Str? &&
     Key(j, "status").Ok? && LaxInt(Key(j, "status").value) && OptStr(FieldOf(j, "ced")))
  }

  /** `MinimaxTTSResponse.model_validate` succeeds: a dict whose six fields all validate. */
  predicate ValidResponse(body: Json) {
    body.Obj? &&
    OptStr(FieldOf(body, "trace_id")) && OptStr(FieldOf(body, "audio_file")) &&
    ValidAudioData(FieldOf(body, "data")) && OptStr(FieldOf(body, "subtitle_file")) &&
    ValidExtraInfo(FieldOf(body, "extra_info")) &&
    (FieldOf(body, "base_resp").Null? || FieldOf(body, "base_resp").Obj?)
  }

  /**
   * `raise_for_status`, `MinimaxTTSResponse.model_validate(response.json())`
   * and `bytes.fromhex(result.data.audio)`.  A body that is not JSON raises
   * ValueError; validation checks every field before anything is read, so a
   * wrong-typed field anywhere is a ValidationError; a missing `data` is
   * None, whose `audio` raises AttributeError.
   */
  function AudioOf(reply: Reply): (r: Res<Bytes>)
    ensures !Http.HttpxOk(reply.status) ==> r == Err(HttpStatusError(reply.status))
    ensures Http.HttpxOk(reply.status) && reply.body.Some? && !ValidResponse(reply.body.value) ==> r == Err(ValidationError)
    ensures r.Ok? <==>
      Http.HttpxOk(reply.status) && reply.body.Some? && ValidResponse(reply.body.value) &&
      FieldOf(reply.body.value, "data").Obj? &&
      FromHex(Key(FieldOf(reply.body.value, "data"), "audio").value.s).Ok?
    ensures r.Ok? ==> FromHex(Key(FieldOf(reply.body.value, "data"), "audio").value.s) == Ok(r.value)
  {
    if !Http.HttpxOk(reply.status) then Err(HttpStatusError(reply.status))
    else if reply.body.None? then Err(ValueError)
    else if !ValidResponse(reply.body.value) then Err(ValidationError)
    else
      var data := FieldOf(reply.body.value, "data");
      if data.Null? then Err(AttributeError)
      else FromHex(Key(data, "audio").value.s)
  }

  /**
   * The audio the service sent, encoded in base16 of either case, is what
   * comes back, whatever form of integer the status takes.
   */
  lemma AudioRoundTrip(bs: Bytes, upper: bool, status: Json)
    requires LaxInt(status)
    ensures AudioOf(Reply(200, Some(Obj([("data", Obj([("audio", Str(ToHex(bs, upper))), ("status", status)]))])))) == Ok(bs)
  {
    var hex := ToHex(bs, upper);
    var data := Obj([("audio", Str(hex)), ("status", status)]);
    var body := Obj([("data", data)]);
    assert Get(body, "data", Null) == Ok(data);
    assert Key(data, "audio") == Ok(Str(hex));
    assert Key(data, "status") == Ok(status);
    assert FieldOf(data, "ced") == Null;
    assert FieldOf(body, "trace_id") == Null && FieldOf(body, "audio_file") == Null;
    assert FieldOf(body, "subtitle_file") == Null && FieldOf(body, "extra_info") == Null;
    assert FieldOf(body, "base_resp") == Null;
    assert ValidResponse(body);
    FromHexRoundTrip(bs, upper);
  }

  /** A field of the wrong type anywhere in the reply fails validation, even when the audio is fine. */
  lemma WrongTypedFieldRejected(bs: Bytes, traceId: int)
    ensures AudioOf(Reply(200, Some(Obj([("trace_id", Int(traceId)),
                                         ("data", Obj([("audio", Str(ToHex(bs, false))), ("status", Int(0))]))])))) ==
            Err(ValidationError)
  {
    var body := Obj([("trace_id", Int(traceId)), ("data", Obj([("audio", Str(ToHex(bs, false))), ("status", Int(0))]))]);
    assert FieldOf(body, "trace_id") == Int(traceId);
  }

  // ------------------------------------------------------------ the service

  class HttpClient {
    var isClosed: bool

    constructor()
      ensures !isClosed
    {
      isClosed := false;
    }
  }

  class MinimaxService {
    const apiUrl: string
    const apiKey: string
    const voiceId: string
    const model: string
    var client: Option<HttpClient>

    constructor(apiUrl: string, apiKey: string, voiceId: string, model: string)
      ensures this.apiUrl == apiUrl && this.apiKey == apiKey && this.voiceId == voiceId && this.model == model
      ensures client.None?
    {
      this.apiUrl, this.apiKey, this.voiceId, this.model := apiUrl, apiKey, voiceId, model;
      client := None;
    }

    /** Is there a client that is still open? */
    predicate HasOpenClient()
      reads this, if client.Some? then {client.value} else {}
    {
      client.Some? && !client.value.isClosed
    }

    /** `_get_client`: keep an open client; otherwise make a new one. */
    method GetClient() returns (c: HttpClient)
      modifies this
      ensures old(HasOpenClient()) ==> c == old(client).value && client == old(client)
      ensures !old(HasOpenClient()) ==> fresh(c) && client == Some(c)
      ensures !c.isClosed
    {
      if client.None? || client.value.isClosed {
        c := new HttpClient();
        client := Some(c);
      } else {
        c := client.value;
      }
    }

    /** `close`: only an open client is closed and dropped; a second close does nothing. */
    method Close()
      modifies this, if client.Some? then {client.value} else {}
      ensures old(HasOpenClient()) ==> client.None? && old(client).value.isClosed
      ensures !old(HasOpenClient()) ==> client == old(client) && (client.Some? ==> unchanged(client.value))
    {
      if client.Some? && !client.value.isClosed {
        client.value.isClosed := true;
        client := None;
      }
    }

    /**
     * `text_to_speech`: post the request built from the instance's model and
     * voice, the given settings and the alias list, through `_get_client`,
     * and decode the reply.  `alias` is the configured alias map.
     */
    method TextToSpeech(text: string, speed: real, vol: real, pitch: int, alias: PyDict.Dict<string, string>, reply: Reply)
      returns (sent: Post, r: Res<Bytes>)
      modifies this
      ensures sent == Post(apiUrl, TtsRequest(model, text, false, "auto", "hex", VoiceSetting(voiceId, speed, vol, pitch), Tones(alias)),
                           Headers(apiKey))
      ensures r == AudioOf(reply)
      ensures HasOpenClient()
      ensures old(HasOpenClient()) ==> client == old(client)
    {
      var tones := AliasTexts(alias);
      var request := TtsRequest(model, text, false, "auto", "hex", VoiceSetting(voiceId, speed, vol, pitch), tones);
      var c := GetClient();
      sent := Post(apiUrl, request, Headers(apiKey));
      r := AudioOf(reply);
    }
  }
}
