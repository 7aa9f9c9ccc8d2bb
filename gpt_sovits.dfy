/**
 * The minimal Gradio client that talks to the GPT-SoVITS web UI: it keeps
 * one HTTP session, reads the UI's configuration once to map API names to
 * function indices, uploads local files named in the inputs, and posts
 * predictions.
 *
 * Every HTTP exchange is an input: the reply to the configuration request,
 * the result of each upload (a function of the path), and the reply to the
 * prediction.  Sessions are numbered handles.
 */
module GptSovits {
  import opened Wrappers
  import opened PyStr
  import opened JsonValue
  import PyDict
  import Http

  /** `base_url`: the url given, with one "/" appended unless it already ends with one. */
  function BaseUrl(url: string): (r: string)
    ensures EndsWith(r, "/")
    ensures EndsWith(url, "/") ==> r == url
    ensures !EndsWith(url, "/") ==> r == url + "/"
  {
    if EndsWith(url, "/") then url
    else
      assert (url + "/")[|url + "/"| - 1..] == "/";
      url + "/"
  }

  /** Appending the slash once is enough. */
  lemma BaseUrlIdempotent(url: string)
    ensures BaseUrl(BaseUrl(url)) == BaseUrl(url)
  {
  }

  /** API names are compared after `strip()` and the removal of every leading "/". */
  function ApiKey(name: string): (r: string)
    ensures r == [] || r[0] != '/'
  {
    LStripChar(Strip(name), '/')
  }

  lemma {:induction false} RStripCons(c: char, s: string)
    requires !IsSpace(c)
    ensures RStrip([c] + s) == [c] + RStrip(s)
    decreases |s|
  {
    if s != [] && IsSpace(s[|s| - 1]) {
      assert ([c] + s)[..|[c] + s| - 1] == [c] + s[..|s| - 1];
      RStripCons(c, s[..|s| - 1]);
    }
  }

  lemma LStripUnchanged(s: string)
    requires s == [] || !IsSpace(s[0])
    ensures LStrip(s) == s
  {
  }

  lemma LStripCharCons(c: char, s: string)
    ensures LStripChar([c] + s, c) == LStripChar(s, c)
  {
    assert ([c] + s)[1..] == s;
  }

  /** A leading "/" does not change the key: "/get_tts_wav" and "get_tts_wav" name the same API. */
  lemma LeadingSlashIgnored(s: string)
    requires s == [] || !IsSpace(s[0])
    ensures ApiKey("/" + s) == ApiKey(s)
  {
    var u := "/" + s;
    LStripUnchanged(u);
    LStripUnchanged(s);
    RStripCons('/', s);
    assert Strip(u) == "/" + RStrip(s);
    LStripCharCons('/', RStrip(s));
  }

  lemma PlainNameKept()
    ensures ApiKey("get_tts_wav") == "get_tts_wav"
  {
    var s := "get_tts_wav";
    assert !IsSpace(s[0]) && !IsSpace(s[|s| - 1]);
    assert LStrip(s) == s;
    assert RStrip(s) == s;
    assert LStripChar(s, '/') == s;
  }

  /** "/get_tts_wav" and "get_tts_wav" name the same API. */
  lemma SlashedNameMatches()
    ensures ApiKey("/get_tts_wav") == "get_tts_wav"
  {
    var s := "get_tts_wav";
    var t := "/" + s;
    assert t == "/get_tts_wav" by {
      assert |t| == 12 && t[0] == '/' && t[1..] == s;
    }
    assert !IsSpace(s[0]);
    LeadingSlashIgnored(s);
    PlainNameKept();
  }

  // ------------------------------------------------------------ the config

  /** A reply: its status, its text, and its body decoded as JSON (None when it is not JSON). */
  datatype Reply = Reply(status: int, text: string, body: Option<Json>)

  /**
   * One dependency of the configuration at position `i`: nothing without a
   * truthy `api_name`, otherwise its key and `int(id)`, or `i` when it has no id.
   */
  function DepEntry(dep: Json, i: int): Res<Option<(string, int)>> {
    var d := if Truthy(dep) then dep else Obj([]);
    var name :- Get(d, "api_name", Null);
    if !Truthy(name) then Ok(None)
    else
      var id := Get(d, "id", Int(i)).value;
      var n :- ToInt(id);
      Ok(Some((ApiKey(StrOf(name)), n)))
  }

  /**
   * A dependency yields an entry only with a truthy `api_name`, keyed by
   * its normalised text; its value is `i` when it has no id; a falsy
   * dependency (None, {}) yields nothing.
   */
  lemma DepEntrySpec(dep: Json, i: int)
    ensures var r := DepEntry(dep, i);
      r.Ok? && r.value.Some? ==> dep.Obj? && Truthy(Get(dep, "api_name", Null).value) &&
                                 r.value.value.0 == ApiKey(StrOf(Get(dep, "api_name", Null).value))
    ensures var r := DepEntry(dep, i);
      r.Ok? && r.value.Some? && "id" !in PyDict.Keys(dep.fields) ==> r.value.value.1 == i
    ensures !Truthy(dep) ==> DepEntry(dep, i) == Ok(None)
    ensures dep.Obj? && Truthy(Get(dep, "api_name", Null).value) && "id" !in PyDict.Keys(dep.fields) ==>
      DepEntry(dep, i) == Ok(Some((ApiKey(StrOf(Get(dep, "api_name", Null).value)), i)))
  {
  }

  type Entry = Res<Option<(string, int)>>

  /** The entry of every dependency, with its position. */
  function Entries(deps: seq<Json>): (es: seq<Entry>)
    ensures |es| == |deps| && forall i :: 0 <= i < |deps| ==> es[i] == DepEntry(deps[i], i)
  {
    seq(|deps|, i requires 0 <= i < |deps| => DepEntry(deps[i], i))
  }

  predicate Yields(e: Entry) {
    e.Ok? && e.value.Some?
  }

  /** The table after the first `n` entries, and the error that stopped the loop, if any. */
  function Loaded(m: PyDict.Dict<string, int>, es: seq<Entry>, n: nat): (PyDict.Dict<string, int>, Option<PyError>)
    requires n <= |es|
  {
    if n == 0 then (m, None)
    else
      var prev := Loaded(m, es, n - 1);
      if prev.1.Some? then prev
      else
        var e := es[n - 1];
        if e.Err? then (prev.0, Some(e.error))
        else if e.value.None? then prev
        else (PyDict.Set(prev.0, e.value.value.0, e.value.value.1), None)
  }

  /** A key no entry yields keeps its earlier value. */
  lemma {:induction false} LoadedKeepsOthers(m: PyDict.Dict<string, int>, es: seq<Entry>, n: nat, k: string)
    requires n <= |es|
    requires forall j :: 0 <= j < n && Yields(es[j]) ==> es[j].value.value.0 != k
    ensures PyDict.Lookup(Loaded(m, es, n).0, k) == PyDict.Lookup(m, k)
  {
    if n > 0 {
      var prev := Loaded(m, es, n - 1);
      LoadedKeepsOthers(m, es, n - 1, k);
      var e := es[n - 1];
      if prev.1.Some? || e.Err? || e.value.None? {
        assert Loaded(m, es, n).0 == prev.0;
      } else {
        var key, value := e.value.value.0, e.value.value.1;
        assert Yields(es[n - 1]);
        assert key != k;
        assert Loaded(m, es, n).0 == PyDict.Set(prev.0, key, value);
        PyDict.SetLookup(prev.0, key, value, k);
      }
    }
  }

  /** When the loop finishes, a key maps to the value of the last entry that yields it: later duplicates win. */
  lemma {:induction false} LoadedLastWins(m: PyDict.Dict<string, int>, es: seq<Entry>, n: nat, j: nat)
    requires j < n <= |es| && Loaded(m, es, n).1.None? && Yields(es[j])
    requires forall l :: j < l < n && Yields(es[l]) ==> es[l].value.value.0 != es[j].value.value.0
    ensures PyDict.Lookup(Loaded(m, es, n).0, es[j].value.value.0) == Some(es[j].value.value.1)
  {
    var k := es[j].value.value.0;
    var prev := Loaded(m, es, n - 1);
    LoadedErrorSticks(m, es, n - 1);
    var e := es[n - 1];
    if e.value.None? {
      LoadedLastWins(m, es, n - 1, j);
    } else {
      PyDict.SetLookup(prev.0, e.value.value.0, e.value.value.1, k);
      if j < n - 1 {
        LoadedLastWins(m, es, n - 1, j);
      }
    }
  }

  /** A loop that ends without error had no error on the way. */
  lemma {:induction false} LoadedErrorSticks(m: PyDict.Dict<string, int>, es: seq<Entry>, n: nat)
    requires n < |es| && Loaded(m, es, n + 1).1.None?
    ensures Loaded(m, es, n).1.None?
  {
  }

  /** Once an entry fails, every longer prefix ends with the same table and error. */
  lemma {:induction false} LoadedStopsUntil(m: PyDict.Dict<string, int>, es: seq<Entry>, n: nat, until: nat)
    requires 0 < n <= until <= |es| && Loaded(m, es, n).1.Some?
    ensures Loaded(m, es, until) == Loaded(m, es, n)
    decreases until - n
  {
    if n < until {
      LoadedStopsUntil(m, es, n + 1, until);
    }
  }

  /** `cfg.get("dependencies") or []`, iterated. */
  function DepsOf(cfg: Json): Res<seq<Json>> {
    var deps :- Get(cfg, "dependencies", Null);
    if !Truthy(deps) then Ok([]) else Iter(deps)
  }

  /**
   * What `_load_config` leaves in the table, and its error if any: the
   * reply must pass aiohttp's `raise_for_status` and be JSON; entries stored
   * before a failing dependency stay in the table.
   */
  function ConfigOutcome(m: PyDict.Dict<string, int>, config: Reply): (PyDict.Dict<string, int>, Option<PyError>) {
    if !Http.AiohttpOk(config.status) then (m, Some(HttpStatusError(config.status)))
    else if config.body.None? then (m, Some(ValueError))
    else
      var deps := DepsOf(config.body.value);
      if deps.Err? then (m, Some(deps.error))
      else Loaded(m, Entries(deps.value), |deps.value|)
  }

  /** Without dependencies (missing, `None` or empty) nothing is added. */
  lemma NoDependenciesNoEntries(m: PyDict.Dict<string, int>, config: Reply)
    requires Http.AiohttpOk(config.status) && config.body.Some? && config.body.value.Obj?
    requires !Truthy(Get(config.body.value, "dependencies", Null).value)
    ensures ConfigOutcome(m, config) == (m, None)
  {
  }

  // ------------------------------------------------------------ the inputs

  /** `isinstance(a, dict) and a.get("meta", {}).get("_type") == "gradio.FileData"`. */
  function IsFileData(a: Json): (r: Res<bool>)
    ensures !a.Obj? ==> r == Ok(false)
  {
    if !a.Obj? then Ok(false)
    else
      var meta := Get(a, "meta", Obj([])).value;
      var t :- Get(meta, "_type", Null);
      Ok(t == Str("gradio.FileData"))
  }

  /** A path that is uploaded: truthy and not an http(s) url. */
  predicate IsLocal(p: Json) {
    Truthy(p) && !(StartsWith(StrOf(p), "http://") || StartsWith(StrOf(p), "https://"))
  }

  const FileDataMeta := Obj([("_type", Str("gradio.FileData"))])

  /**
   * One argument of `_process_inputs`: a FileData dict with a local path is
   * uploaded and replaced; everything else passes unchanged.
   */
  function ProcessOne(a: Json, upload: Json -> Res<Json>): (r: Res<Json>)
    ensures r.Ok? && IsFileData(a) == Ok(true) && IsLocal(Get(a, "path", Null).value) ==>
      var p := Get(a, "path", Null).value;
      var orig := Get(a, "orig_name", Null).value;
      upload(p).Ok? &&
      r.value == Obj([("path", upload(p).value),
                      ("orig_name", if Truthy(orig) then orig else Str(LastSegment(StrOf(p), '/'))),
                      ("meta", FileDataMeta)])
    ensures IsFileData(a) == Ok(false) ==> r == Ok(a)
    ensures IsFileData(a) == Ok(true) && !IsLocal(Get(a, "path", Null).value) ==> r == Ok(a)
  {
    var fd :- IsFileData(a);
    if !fd then Ok(a)
    else
      var p := Get(a, "path", Null).value;
      if IsLocal(p) then
        var uploaded :- upload(p);
        var orig := Get(a, "orig_name", Null).value;
        Ok(Obj([("path", uploaded),
                ("orig_name", if Truthy(orig) then orig else Str(LastSegment(StrOf(p), '/'))),
                ("meta", FileDataMeta)]))
      else Ok(a)
  }

  /** The processed arguments, in order; the first failing upload or lookup ends the loop. */
  function Processed(args: seq<Json>, upload: Json -> Res<Json>): Res<seq<Json>>
    decreases |args|
  {
    if args == [] then Ok([])
    else
      var prev :- Processed(args[..|args| - 1], upload);
      var last :- ProcessOne(args[|args| - 1], upload);
      Ok(prev + [last])
  }

  /** Processing keeps length and order: entry i is argument i processed. */
  lemma {:induction false} ProcessedSpec(args: seq<Json>, upload: Json -> Res<Json>)
    requires Processed(args, upload).Ok?
    ensures |Processed(args, upload).value| == |args|
    ensures forall i :: 0 <= i < |args| ==>
      ProcessOne(args[i], upload).Ok? && Processed(args, upload).value[i] == ProcessOne(args[i], upload).value
    decreases |args|
  {
    if args != [] {
      var init := args[..|args| - 1];
      ProcessedSpec(init, upload);
      forall i | 0 <= i < |args| - 1
        ensures args[i] == init[i]
      {
      }
    }
  }

  lemma {:induction false} ProcessedErrorSticks(args: seq<Json>, upload: Json -> Res<Json>, n: nat)
    requires n <= |args| && Processed(args[..n], upload).Err?
    ensures Processed(args, upload) == Processed(args[..n], upload)
    decreases |args| - n
  {
    if n < |args| {
      assert args[..n + 1][..n] == args[..n];
      ProcessedErrorSticks(args, upload, n + 1);
    } else {
      assert args[..n] == args;
    }
  }

  // ------------------------------------------------------------ prediction

  function Shorten(text: string): (r: string)
    ensures |r| <= 200 && StartsWith(text, r)
  {
    if |text| <= 200 then text else text[..200]
  }

  /**
   * The reply to a prediction: anything but 200 raises with the status and
   * the start of the text; a truthy `error` raises with it; otherwise the
   * `data` field (None when missing) is the answer.
   */
  function PredictResult(reply: Reply): (r: Res<Json>)
    ensures r.Ok? <==> reply.status == 200 && reply.body.Some? && reply.body.value.Obj? &&
                       !Truthy(Get(reply.body.value, "error", Null).value)
    ensures r.Ok? ==> r.value == Get(reply.body.value, "data", Null).value
    ensures reply.status != 200 ==>
      r == Err(RuntimeError("Gradio predict failed: " + IntToString(reply.status) + " " + Shorten(reply.text)))
  {
    if reply.status != 200 then Err(RuntimeError("Gradio predict failed: " + IntToString(reply.status) + " " + Shorten(reply.text)))
    else if reply.body.None? then Err(ValueError)
    else
      var err :- Get(reply.body.value, "error", Null);
      if Truthy(err) then Err(RuntimeError("Gradio API error: " + StrOf(err)))
      else Get(reply.body.value, "data", Null)
  }

  /** The body posted to `api/predict/`. */
  datatype Request = Request(url: string, data: seq<Json>, fnIndex: int, sessionHash: string)

  function NotFound(apiName: string): PyError {
    RuntimeError("API '" + apiName + "' not found in gradio config")
  }

  class GradioClient {
    const baseUrl: string
    var session: Option<nat>
    var fnMap: PyDict.Dict<string, int>
    /** The next session handle to hand out. */
    var nextSession: nat
    /** The sessions closed so far, in order. */
    var closedSessions: seq<nat>

    constructor(url: string)
      ensures baseUrl == BaseUrl(url)
      ensures session.None? && fnMap == [] && closedSessions == []
    {
      baseUrl := BaseUrl(url);
      session := None;
      fnMap := [];
      nextSession := 0;
      closedSessions := [];
    }

    /** `_load_config`: store the entries one by one; a failure leaves the earlier ones stored. */
    method LoadConfig(config: Reply) returns (r: Res<()>)
      modifies this`fnMap
      ensures (fnMap, if r.Err? then Some(r.error) else None) == ConfigOutcome(old(fnMap), config)
    {
      if !Http.AiohttpOk(config.status) {
        return Err(HttpStatusError(config.status));
      }
      if config.body.None? {
        return Err(ValueError);
      }
      var deps := DepsOf(config.body.value);
      if deps.Err? {
        return Err(deps.error);
      }
      var ds := deps.value;
      ghost var start := fnMap;
      ghost var es := Entries(ds);
      for i := 0 to |ds|
        invariant Loaded(start, es, i) == (fnMap, None)
      {
        var e := DepEntry(ds[i], i);
        assert e == es[i];
        if e.Err? {
          LoadedStopsUntil(start, es, i + 1, |ds|);
          return Err(e.error);
        }
        if e.value.Some? {
          fnMap := PyDict.Set(fnMap, e.value.value.0, e.value.value.1);
        }
      }
      return Ok(());
    }

    /**
     * `ensure`: only without a session, open one and load the configuration.
     * The session is kept even when loading fails, so a later `ensure` does
     * not load again.
     */
    method Ensure(config: Reply) returns (loaded: bool, r: Res<()>)
      modifies this
      ensures session.Some?
      ensures closedSessions == old(closedSessions)
      ensures old(session).Some? ==> !loaded && r == Ok(()) && session == old(session) && fnMap == old(fnMap) &&
                                     nextSession == old(nextSession)
      ensures old(session).None? ==> loaded && session == Some(old(nextSession)) && nextSession == old(nextSession) + 1 &&
                                     (fnMap, if r.Err? then Some(r.error) else None) == ConfigOutcome(old(fnMap), config)
    {
      if session.Some? {
        return false, Ok(());
      }
      session := Some(nextSession);
      nextSession := nextSession + 1;
      r := LoadConfig(config);
      loaded := true;
    }

    /** `close`: drop the session first, then close it (its errors are swallowed); without one nothing happens. */
    method Close()
      modifies this
      ensures session.None?
      ensures old(session).Some? ==> closedSessions == old(closedSessions) + [old(session).value]
      ensures old(session).None? ==> closedSessions == old(closedSessions)
      ensures fnMap == old(fnMap) && nextSession == old(nextSession)
    {
      if session.Some? {
        var s := session.value;
        session := None;
        closedSessions := closedSessions + [s];
      }
    }

    /** `_process_inputs`: upload and replace the local FileData entries, in order. */
    method ProcessInputs(args: seq<Json>, upload: Json -> Res<Json>) returns (r: Res<seq<Json>>)
      ensures r == Processed(args, upload)
    {
      var processed: seq<Json> := [];
      for i := 0 to |args|
        invariant Processed(args[..i], upload) == Ok(processed)
      {
        assert args[..i + 1][..i] == args[..i];
        var a := ProcessOne(args[i], upload);
        if a.Err? {
          ProcessedErrorSticks(args, upload, i + 1);
          return Err(a.error);
        }
        processed := processed + [a.value];
      }
      assert args[..|args|] == args;
      return Ok(processed);
    }

    /**
     * `predict`: ensure the session, look the API up (an unknown name raises
     * before anything is sent), process the inputs, post them and read the
     * reply.  `nowMs` is the clock in milliseconds, the session hash.
     */
    method Predict(apiName: string, args: seq<Json>, config: Reply, upload: Json -> Res<Json>, reply: Reply, nowMs: int)
      returns (sent: Option<Request>, r: Res<Json>)
      modifies this
      ensures session.Some?
      ensures old(session).Some? ==> fnMap == old(fnMap)
      ensures old(session).None? ==> fnMap == ConfigOutcome(old(fnMap), config).0
      ensures old(session).None? && ConfigOutcome(old(fnMap), config).1.Some? ==>
        sent.None? && r == Err(ConfigOutcome(old(fnMap), config).1.value)
      ensures (old(session).Some? || ConfigOutcome(old(fnMap), config).1.None?) ==>
        var fn := PyDict.Lookup(fnMap, ApiKey(apiName));
        var inputs := Processed(args, upload);
        (fn.None? ==> sent.None? && r == Err(NotFound(apiName))) &&
        (fn.Some? && inputs.Err? ==> sent.None? && r == Err(inputs.error)) &&
        (fn.Some? && inputs.Ok? ==>
           sent == Some(Request(baseUrl + "api/predict/", inputs.value, fn.value, IntToString(nowMs))) &&
           r == PredictResult(reply))
    {
      var loaded, ok := Ensure(config);
      if ok.Err? {
        return None, Err(ok.error);
      }
      var fn := PyDict.Lookup(fnMap, ApiKey(apiName));
      if fn.None? {
        return None, Err(NotFound(apiName));
      }
      var inputs := ProcessInputs(args, upload);
      if inputs.Err? {
        return None, Err(inputs.error);
      }
      sent := Some(Request(baseUrl + "api/predict/", inputs.value, fn.value, IntToString(nowMs)));
      r := PredictResult(reply);
    }
  }
}
