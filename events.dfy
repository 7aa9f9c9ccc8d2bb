/**
 * The live-room event records and how they are read out of the raw event
 * payloads pushed by the danmaku client: chat messages (danmaku), entry /
 * follow / share interactions, guard purchases, super chats and gifts.
 *
 * Every field is typed; a payload value of the wrong JSON type for its
 * field is treated as an error (a TypeError), like an index or key error
 * on the way to it.
 */
module EventModels {
  import opened Wrappers
  import opened PyStr
  import opened JsonValue
  import PyDict

  /** Guard (captain) levels with their numeric values 0..3. */
  datatype GuardLevel = NoGuard | Governor | Lieutenant | Captain

  function Value(g: GuardLevel): (v: int)
    ensures 0 <= v <= 3
  {
    match g
    case NoGuard => 0
    case Governor => 1
    case Lieutenant => 2
    case Captain => 3
  }

  /** `GuardLevel.name_cn`: the Chinese display name of a level. */
  function NameCn(g: GuardLevel): string {
    match g
    case NoGuard => "非舰长"
    case Governor => "总督"
    case Lieutenant => "提督"
    case Captain => "舰长"
  }

  /** The four display names are distinct, and none is the unknown-level text. */
  lemma NameCnInjective(a: GuardLevel, b: GuardLevel)
    ensures NameCn(a) == NameCn(b) ==> a == b
    ensures NameCn(a) != "未知等级"
  {
  }

  /** `GuardLevel(value)`: lookup by value; `True`/`False` equal 1/0; anything else is a ValueError. */
  function GuardLevelOf(j: Json): (r: Res<GuardLevel>)
    ensures r.Ok? <==> (j.Int? && 0 <= j.i <= 3) || j.Bool?
    ensures r.Ok? && j.Int? ==> Value(r.value) == j.i
    ensures r.Err? ==> r.error == ValueError
  {
    var v := if j.Int? then j.i else if j.Bool? then (if j.b then 1 else 0) else -1;
    if v == 0 then Ok(NoGuard)
    else if v == 1 then Ok(Governor)
    else if v == 2 then Ok(Lieutenant)
    else if v == 3 then Ok(Captain)
    else Err(ValueError)
  }

  /** Reading a level back from its value gives the level. */
  lemma GuardLevelRoundTrip(g: GuardLevel)
    ensures GuardLevelOf(Int(Value(g))) == Ok(g)
  {
  }

  // ---------------------------------------------------------------- danmaku

  datatype DanmuMessage = DanmuMessage(
    roomId: int,
    userMid: int,
    userName: string,
    message: string,
    userFace: string,
    fansMedalName: string,
    fansMedalLevel: int,
    guardLevel: GuardLevel,
    replyMid: int,
    replyUname: string,
    timestamp: int,
    emotion: PyDict.Dict<string, string>,
    picEmoticon: string)

  /** `DanmuMessage()` with every field at its default. */
  const DefaultDanmu := DanmuMessage(0, 0, "", "", "", "", 0, NoGuard, 0, "", 0, [], "")

  /** The dict at `info[0][15]`'s "extra": decoded with `loads`; a missing key reads "{}", i.e. an empty dict. */
  function ExtraOf(e15: Json, loads: string -> Res<Json>): Res<Json> {
    if !Truthy(e15) then Ok(Obj([]))
    else
      var raw :- Get(e15, "extra", Str("{}"));
      if raw == Str("{}") then Ok(Obj([]))
      else if raw.Str? then loads(raw.s)
      else Err(TypeError)
  }

  /** The url of one `emots` entry, "" when it has none. */
  function EmotUrl(v: Json): Res<string> {
    var u :- Get(v, "url", Str(""));
    AsStr(u)
  }

  /** The emotion table built from the `emots` entries, as the fill loop of `parse` builds it. */
  function EmotionEntries(items: seq<(string, Json)>): Res<PyDict.Dict<string, string>>
    decreases |items|
  {
    if items == [] then Ok([])
    else
      var prev :- EmotionEntries(items[..|items| - 1]);
      var url :- EmotUrl(items[|items| - 1].1);
      Ok(PyDict.Set(prev, items[|items| - 1].0, url))
  }

  /**
   * Each `emots` entry becomes key -> url ("" when the url is missing): the
   * table has the same keys in the same order, and every key maps to the url
   * of its own entry.
   */
  lemma {:induction false} EmotionEntriesSpec(items: seq<(string, Json)>)
    requires PyDict.DistinctKeys(items)
    requires EmotionEntries(items).Ok?
    ensures PyDict.Keys(EmotionEntries(items).value) == PyDict.Keys(items)
    ensures forall i :: 0 <= i < |items| ==>
      EmotUrl(items[i].1).Ok? && PyDict.Lookup(EmotionEntries(items).value, items[i].0) == Some(EmotUrl(items[i].1).value)
    decreases |items|
  {
    if items != [] {
      var init, last := items[..|items| - 1], items[|items| - 1];
      PyDict.DistinctInit(items);
      PyDict.KeysInit(items);
      EmotionStep(items);
      EmotionEntriesSpec(init);
      var prev := EmotionEntries(init).value;
      var url := EmotUrl(last.1).value;
      PyDict.SetKeys(prev, last.0, url);
      forall i | 0 <= i < |items|
        ensures EmotUrl(items[i].1).Ok? && PyDict.Lookup(PyDict.Set(prev, last.0, url), items[i].0) == Some(EmotUrl(items[i].1).value)
      {
        PyDict.SetLookup(prev, last.0, url, items[i].0);
        if i < |items| - 1 {
          assert items[i] == init[i];
          assert PyDict.Keys(init)[i] == items[i].0;
        }
      }
    }
  }

  /** A table built without error extends the table of all but the last entry with that entry's url. */
  lemma EmotionStep(items: seq<(string, Json)>)
    requires items != [] && EmotionEntries(items).Ok?
    ensures EmotionEntries(items[..|items| - 1]).Ok? && EmotUrl(items[|items| - 1].1).Ok?
    ensures EmotionEntries(items).value ==
      PyDict.Set(EmotionEntries(items[..|items| - 1]).value, items[|items| - 1].0, EmotUrl(items[|items| - 1].1).value)
  {
  }

  /** Once an entry fails, the whole table fails with that entry's error. */
  lemma {:induction false} EmotionErrorSticks(items: seq<(string, Json)>, n: nat)
    requires n <= |items| && EmotionEntries(items[..n]).Err?
    ensures EmotionEntries(items) == EmotionEntries(items[..n])
    decreases |items| - n
  {
    if n < |items| {
      assert items[..n + 1][..n] == items[..n];
      EmotionErrorSticks(items, n + 1);
    } else {
      assert items[..n] == items;
    }
  }

  /** The table for `extra.get("emots", {})`: empty when falsy, otherwise its `items()`. */
  function EmotionOf(extra: Json): Res<PyDict.Dict<string, string>> {
    var emots :- Get(extra, "emots", Obj([]));
    if !Truthy(emots) then Ok([])
    else if emots.Obj? then EmotionEntries(emots.fields)
    else Err(AttributeError)
  }

  /** Reply fields: read only when `extra` is non-empty and its `show_reply` is truthy. */
  function ReplyOf(extra: Json): Res<(int, string)> {
    if !Truthy(extra) then Ok((0, ""))
    else
      var show :- Get(extra, "show_reply", Bool(false));
      if !Truthy(show) then Ok((0, ""))
      else
        var mid :- Get(extra, "reply_mid", Int(0));
        var midValue :- AsInt(mid);
        var uname :- Get(extra, "reply_uname", Str(""));
        var unameValue :- AsStr(uname);
        Ok((midValue, unameValue))
  }

  /** `info[0][15].get("user", {}).get("base", {}).get("face", "")`, when `info[0][15]` is truthy. */
  function FaceOf(e15: Json): Res<string> {
    if !Truthy(e15) then Ok("")
    else
      var user :- Get(e15, "user", Obj([]));
      var base :- Get(user, "base", Obj([]));
      var face :- Get(base, "face", Str(""));
      AsStr(face)
  }

  /** Medal name, medal level and guard level from `info[3]`, when it is non-empty. */
  function MedalOf(i3: Json): Res<(string, int, GuardLevel)> {
    if !Truthy(i3) then Ok(("", 0, NoGuard))
    else
      var name :- At(i3, 1);
      var nameValue :- AsStr(name);
      var level :- At(i3, 0);
      var levelValue :- AsInt(level);
      var guard :- At(i3, 10);
      var guardValue :- GuardLevelOf(guard);
      Ok((nameValue, levelValue, guardValue))
  }

  /** The picture emoticon url, read only when `info[0][13]` is a dict. */
  function PicOf(pic: Json): Res<string> {
    if pic.Obj? then
      var url :- Get(pic, "url", Str(""));
      AsStr(url)
    else Ok("")
  }

  /** What `parse` reads from `info[0]` and `info[1]` before the emotion table. */
  datatype Head = Head(message: string, timestamp: int, i0: Json, e15: Json, extra: Json)

  function HeadOf(info: Json, loads: string -> Res<Json>): Res<Head> {
    var msg :- At(info, 1);
    var message :- AsStr(msg);
    var i0 :- At(info, 0);
    var ts :- At(i0, 4);
    var timestamp :- AsInt(ts);
    var e15 :- At(i0, 15);
    var extra :- ExtraOf(e15, loads);
    Ok(Head(message, timestamp, i0, e15, extra))
  }

  /** What `parse` reads after the reply fields: sender, face, medal and picture emoticon. */
  datatype Sender = Sender(userMid: int, userName: string, face: string, medal: (string, int, GuardLevel), pic: string)

  function SenderOf(info: Json, i0: Json, e15: Json): Res<Sender> {
    var i2 :- At(info, 2);
    var mid :- At(i2, 0);
    var userMid :- AsInt(mid);
    var name :- At(i2, 1);
    var userName :- AsStr(name);
    var face :- FaceOf(e15);
    var i3 :- At(info, 3);
    var medal :- MedalOf(i3);
    var pic :- At(i0, 13);
    var picEmoticon :- PicOf(pic);
    Ok(Sender(userMid, userName, face, medal, picEmoticon))
  }

  /** The message built from the parts, every field in its place. */
  function Assemble(roomId: int, h: Head, emotion: PyDict.Dict<string, string>, reply: (int, string), s: Sender): DanmuMessage {
    DanmuMessage(roomId, s.userMid, s.userName, h.message, s.face, s.medal.0, s.medal.1, s.medal.2,
                 reply.0, reply.1, h.timestamp, emotion, s.pic)
  }

  /**
   * `DanmuMessage.parse` as a function of the payload, in the order the
   * fields are read; `loads` stands for `json.loads`.
   */
  function DanmuSpec(event: Json, loads: string -> Res<Json>): Res<DanmuMessage> {
    var rid :- Key(event, "room_display_id");
    var roomId :- ToInt(rid);
    var base := DefaultDanmu.(roomId := roomId);
    if "data" !in PyDict.Keys(event.fields) then Ok(base)
    else
      var data := PyDict.Lookup(event.fields, "data").value;
      var hasInfo :- In("info", data);
      if !hasInfo then Ok(base)
      else
        var info :- Key(data, "info");
        var head :- HeadOf(info, loads);
        var emotion :- EmotionOf(head.extra);
        var reply :- ReplyOf(head.extra);
        var sender :- SenderOf(info, head.i0, head.e15);
        Ok(Assemble(roomId, head, emotion, reply, sender))
  }

  /** The fill loop of `parse`: `instance.emotion[k] = v.get("url", "")` for each entry in order. */
  method FillEmotion(items: seq<(string, Json)>) returns (r: Res<PyDict.Dict<string, string>>)
    ensures r == EmotionEntries(items)
  {
    var table: PyDict.Dict<string, string> := [];
    var i := 0;
    while i < |items|
      invariant 0 <= i <= |items|
      invariant EmotionEntries(items[..i]) == Ok(table)
    {
      assert items[..i + 1][..i] == items[..i];
      var url := EmotUrl(items[i].1);
      if url.Err? {
        EmotionErrorSticks(items, i + 1);
        return Err(url.error);
      }
      table := PyDict.Set(table, items[i].0, url.value);
      i := i + 1;
    }
    assert items[..|items|] == items;
    return Ok(table);
  }

  /**
   * `DanmuMessage.parse`: returns early without `data`/`info`, then reads
   * the fields in order and fills the emotion table entry by entry.
   */
  method ParseDanmu(event: Json, loads: string -> Res<Json>) returns (r: Res<DanmuMessage>)
    ensures r == DanmuSpec(event, loads)
  {
    var rid :- Key(event, "room_display_id");
    var roomId :- ToInt(rid);
    var instance := DefaultDanmu.(roomId := roomId);
    if "data" !in PyDict.Keys(event.fields) {
      return Ok(instance);
    }
    var data := PyDict.Lookup(event.fields, "data").value;
    var hasInfo :- In("info", data);
    if !hasInfo {
      return Ok(instance);
    }
    var info :- Key(data, "info");
    var head :- HeadOf(info, loads);
    var emots :- Get(head.extra, "emots", Obj([]));
    var emotion: PyDict.Dict<string, string> := [];
    if Truthy(emots) {
      if !emots.Obj? {
        return Err(AttributeError);
      }
      emotion :- FillEmotion(emots.fields);
    }
    var reply :- ReplyOf(head.extra);
    var sender :- SenderOf(info, head.i0, head.e15);
    return Ok(Assemble(roomId, head, emotion, reply, sender));
  }

  /** `room_id` always comes from `room_display_id`; without `data` or `info` every other field stays default. */
  lemma DanmuRoomAndEarlyReturn(event: Json, loads: string -> Res<Json>, roomId: int)
    requires Key(event, "room_display_id").Ok? && ToInt(Key(event, "room_display_id").value) == Ok(roomId)
    ensures DanmuSpec(event, loads).Ok? ==> DanmuSpec(event, loads).value.roomId == roomId
    ensures "data" !in PyDict.Keys(event.fields) ==> DanmuSpec(event, loads) == Ok(DefaultDanmu.(roomId := roomId))
    ensures "data" in PyDict.Keys(event.fields) && In("info", Key(event, "data").value) == Ok(false) ==>
      DanmuSpec(event, loads) == Ok(DefaultDanmu.(roomId := roomId))
  {
    var d := DanmuSpec(event, loads);
    assert event.Obj?;
    if "data" in PyDict.Keys(event.fields) {
      var data := PyDict.Lookup(event.fields, "data").value;
      assert Key(event, "data") == Ok(data);
      if In("info", data) == Ok(true) && d.Ok? {
        var info := Key(data, "info").value;
        var head := HeadOf(info, loads).value;
        var emotion := EmotionOf(head.extra).value;
        var reply := ReplyOf(head.extra).value;
        var sender := SenderOf(info, head.i0, head.e15).value;
        assert d.value == Assemble(roomId, head, emotion, reply, sender);
      }
    }
  }

  /** Without a room id that `int()` accepts, `parse` fails before reading anything else. */
  lemma DanmuNeedsRoomId(event: Json, loads: string -> Res<Json>)
    requires Key(event, "room_display_id").Err? || ToInt(Key(event, "room_display_id").value).Err?
    ensures DanmuSpec(event, loads).Err?
  {
  }

  /** The reply fields stay default unless `extra["show_reply"]` is truthy. */
  lemma ReplyOnlyWhenShown(extra: Json)
    requires ReplyOf(extra).Ok?
    requires !(extra.Obj? && Get(extra, "show_reply", Bool(false)).Ok? && Truthy(Get(extra, "show_reply", Bool(false)).value))
    ensures ReplyOf(extra) == Ok((0, ""))
  {
  }

  /** Medal and guard fields stay default unless `info[3]` is non-empty; an out-of-range level is a ValueError. */
  lemma MedalOnlyWhenPresent(i3: Json)
    ensures !Truthy(i3) ==> MedalOf(i3) == Ok(("", 0, NoGuard))
    ensures (Truthy(i3) && i3.Arr? && |i3.items| > 10 && i3.items[1].Str? && i3.items[0].Int? &&
             i3.items[10].Int? && !(0 <= i3.items[10].i <= 3)) ==> MedalOf(i3) == Err(ValueError)
  {
  }

  /** The picture emoticon is read only from a dict. */
  lemma PicOnlyFromDict(pic: Json)
    ensures !pic.Obj? ==> PicOf(pic) == Ok("")
    ensures pic.Obj? && "url" !in PyDict.Keys(pic.fields) ==> PicOf(pic) == Ok("")
  {
  }

  function GuardTag(g: GuardLevel): string {
    if Value(g) != 0 then "[" + NameCn(g) + "]" else ""
  }

  function MedalTag(m: DanmuMessage): string {
    if m.fansMedalName != "" && m.fansMedalLevel != 0 then "[" + m.fansMedalName + "(" + IntToString(m.fansMedalLevel) + ")]" else ""
  }

  /**
   * `DanmuMessage.__str__`, accumulating the text: an optional guard tag, an
   * optional medal tag, then `user_name:message`.
   */
  method DanmuToString(m: DanmuMessage) returns (r: string)
    ensures r == GuardTag(m.guardLevel) + MedalTag(m) + (m.userName + ":" + m.message)
    ensures EndsWith(r, m.userName + ":" + m.message)
    ensures m.guardLevel != NoGuard ==> StartsWith(r, "[" + NameCn(m.guardLevel) + "]")
    ensures m.guardLevel == NoGuard && (m.fansMedalName == "" || m.fansMedalLevel == 0) ==> r == m.userName + ":" + m.message
  {
    r := "";
    if Value(m.guardLevel) != 0 {
      r := r + ("[" + NameCn(m.guardLevel) + "]");
    }
    assert r == GuardTag(m.guardLevel);
    if m.fansMedalName != "" && m.fansMedalLevel != 0 {
      r := r + ("[" + m.fansMedalName + "(" + IntToString(m.fansMedalLevel) + ")]");
    }
    assert r == GuardTag(m.guardLevel) + MedalTag(m);
    var tail := m.userName + ":" + m.message;
    r := r + tail;
    DanmuTextAffixes(m);
  }

  /** The text ends with `user_name:message`, and starts with the guard tag when there is one. */
  lemma DanmuTextAffixes(m: DanmuMessage)
    ensures var r := GuardTag(m.guardLevel) + MedalTag(m) + (m.userName + ":" + m.message);
      EndsWith(r, m.userName + ":" + m.message) &&
      (m.guardLevel != NoGuard ==> StartsWith(r, "[" + NameCn(m.guardLevel) + "]"))
  {
    var tail := m.userName + ":" + m.message;
    var head := GuardTag(m.guardLevel) + MedalTag(m);
    ConcatAffixes(head, tail);
    if m.guardLevel != NoGuard {
      var tag := "[" + NameCn(m.guardLevel) + "]";
      assert head + tail == tag + (MedalTag(m) + tail);
      ConcatAffixes(tag, MedalTag(m) + tail);
    }
  }

  // ------------------------------------------------------------ interactions

  datatype InteractType = Enter | Follow | Share

  /** `event["data"]["data"]`: where the fields of every non-chat event are. */
  function Data(event: Json): Res<Json> {
    var outer :- Key(event, "data");
    Key(outer, "data")
  }

  /** `InteractType(value)`: 1, 2, 3 (or `True` for 1); anything else is a ValueError. */
  function InteractTypeOf(j: Json): (r: Res<InteractType>)
    ensures r.Ok? <==> (j.Int? && 1 <= j.i <= 3) || j == Bool(true)
    ensures r.Err? ==> r.error == ValueError
  {
    var v := if j.Int? then j.i else if j.Bool? then (if j.b then 1 else 0) else 0;
    if v == 1 then Ok(Enter)
    else if v == 2 then Ok(Follow)
    else if v == 3 then Ok(Share)
    else Err(ValueError)
  }

  datatype InteractWord = InteractWord(roomId: int, userMid: int, userName: string, msgType: InteractType, timestamp: int)

  /** `InteractWord.parse`: every field comes from `event["data"]["data"]`, the room id from `room_display_id`. */
  function ParseInteractWord(event: Json): (r: Res<InteractWord>)
    ensures r.Ok? ==> Data(event).Ok?
    ensures r.Ok? ==> Key(Data(event).value, "msg_type").Ok? &&
                      InteractTypeOf(Key(Data(event).value, "msg_type").value) == Ok(r.value.msgType)
    ensures r.Ok? ==> Key(Data(event).value, "uname") == Ok(Str(r.value.userName))
    ensures r.Ok? ==> Key(event, "room_display_id").Ok? &&
                      ToInt(Key(event, "room_display_id").value) == Ok(r.value.roomId)
    ensures r.Ok? ==> Key(Data(event).value, "uid").Ok? &&
                      AsInt(Key(Data(event).value, "uid").value) == Ok(r.value.userMid)
    ensures r.Ok? ==> Key(Data(event).value, "timestamp").Ok? &&
                      AsInt(Key(Data(event).value, "timestamp").value) == Ok(r.value.timestamp)
  {
    var rid :- Key(event, "room_display_id");
    var roomId :- ToInt(rid);
    var data :- Data(event);
    var uid :- Key(data, "uid");
    var userMid :- AsInt(uid);
    var uname :- Key(data, "uname");
    var userName :- AsStr(uname);
    var mt :- Key(data, "msg_type");
    var msgType :- InteractTypeOf(mt);
    var ts :- Key(data, "timestamp");
    var timestamp :- AsInt(ts);
    Ok(InteractWord(roomId, userMid, userName, msgType, timestamp))
  }

  // --------------------------------------------------------- guard purchase

  datatype GuardBuy = GuardBuy(roomId: int, userMid: int, userName: string, guardLevel: GuardLevel,
                               num: int, price: int, timestamp: int)

  /** `GuardBuy.parse`; `now` is `int(time.time())`. */
  function ParseGuardBuy(event: Json, now: int): (r: Res<GuardBuy>)
    ensures r.Ok? ==> r.value.timestamp == now
    ensures r.Ok? ==> Data(event).Ok? && Key(Data(event).value, "price").Ok? &&
                      AsInt(Key(Data(event).value, "price").value) == Ok(r.value.price)
    ensures r.Ok? ==> Key(event, "room_display_id").Ok? &&
                      ToInt(Key(event, "room_display_id").value) == Ok(r.value.roomId)
    ensures r.Ok? ==> Key(Data(event).value, "uid").Ok? &&
                      AsInt(Key(Data(event).value, "uid").value) == Ok(r.value.userMid)
    ensures r.Ok? ==> Key(Data(event).value, "username") == Ok(Str(r.value.userName))
    ensures r.Ok? ==> Key(Data(event).value, "guard_level").Ok? &&
                      GuardLevelOf(Key(Data(event).value, "guard_level").value) == Ok(r.value.guardLevel)
    ensures r.Ok? ==> Key(Data(event).value, "num").Ok? &&
                      AsInt(Key(Data(event).value, "num").value) == Ok(r.value.num)
  {
    var data :- Data(event);
    var rid :- Key(event, "room_display_id");
    var roomId :- ToInt(rid);
    var uid :- Key(data, "uid");
    var userMid :- AsInt(uid);
    var uname :- Key(data, "username");
    var userName :- AsStr(uname);
    var gl :- Key(data, "guard_level");
    var guard :- GuardLevelOf(gl);
    var n :- Key(data, "num");
    var num :- AsInt(n);
    var p :- Key(data, "price");
    var price :- AsInt(p);
    Ok(GuardBuy(roomId, userMid, userName, guard, num, price, now))
  }

  /** `GuardBuy.__str__`: "name[mid] 购买了 level，价值 price 元". */
  function GuardBuyText(g: GuardBuy): (r: string)
    ensures StartsWith(r, g.userName + "[" + IntToString(g.userMid) + "] 购买了 " + NameCn(g.guardLevel))
    ensures EndsWith(r, "，价值 " + IntToString(g.price) + " 元")
    ensures |r| == |g.userName + "[" + IntToString(g.userMid) + "] 购买了 " + NameCn(g.guardLevel)| + |"，价值 " + IntToString(g.price) + " 元"|
  {
    var head := g.userName + "[" + IntToString(g.userMid) + "] 购买了 " + NameCn(g.guardLevel);
    var tail := "，价值 " + IntToString(g.price) + " 元";
    assert (head + tail)[..|head|] == head;
    assert (head + tail)[|head + tail| - |tail|..] == tail;
    head + tail
  }

  // ------------------------------------------------------------- super chat

  datatype SuperChatMessage = SuperChatMessage(roomId: int, userMid: int, userName: string, price: int,
                                               message: string, time: int, fansMedalName: string,
                                               fansMedalLevel: int, guardLevel: GuardLevel,
                                               userFace: string, timestamp: int)

  /** `SuperChatMessage.parse`; `now` is `int(time.time())`, stored in `time`; `timestamp` keeps its default 0. */
  function ParseSuperChat(event: Json, now: int): (r: Res<SuperChatMessage>)
    ensures r.Ok? ==> r.value.time == now && r.value.timestamp == 0
    ensures r.Ok? ==> Data(event).Ok? &&
                      Key(Data(event).value, "message") == Ok(Str(r.value.message))
    ensures r.Ok? ==> Key(event, "room_display_id").Ok? &&
                      ToInt(Key(event, "room_display_id").value) == Ok(r.value.roomId)
    ensures r.Ok? ==> Key(Data(event).value, "uid").Ok? &&
                      AsInt(Key(Data(event).value, "uid").value) == Ok(r.value.userMid)
    ensures r.Ok? ==> Path(Data(event).value, [K("user_info"), K("uname")]) == Ok(Str(r.value.userName))
    ensures r.Ok? ==> Key(Data(event).value, "price").Ok? &&
                      AsInt(Key(Data(event).value, "price").value) == Ok(r.value.price)
    ensures r.Ok? ==> Path(Data(event).value, [K("medal_info"), K("medal_name")]) == Ok(Str(r.value.fansMedalName))
    ensures r.Ok? ==> Path(Data(event).value, [K("medal_info"), K("medal_level")]).Ok? &&
                      AsInt(Path(Data(event).value, [K("medal_info"), K("medal_level")]).value) == Ok(r.value.fansMedalLevel)
    ensures r.Ok? ==> Path(Data(event).value, [K("medal_info"), K("guard_level")]).Ok? &&
                      GuardLevelOf(Path(Data(event).value, [K("medal_info"), K("guard_level")]).value) == Ok(r.value.guardLevel)
    ensures r.Ok? ==> Path(Data(event).value, [K("user_info"), K("face")]) == Ok(Str(r.value.userFace))
  {
    var rid :- Key(event, "room_display_id");
    var roomId :- ToInt(rid);
    var data :- Data(event);
    var uid :- Key(data, "uid");
    var userMid :- AsInt(uid);
    var uname :- Path(data, [K("user_info"), K("uname")]);
    var userName :- AsStr(uname);
    var p :- Key(data, "price");
    var price :- AsInt(p);
    var msg :- Key(data, "message");
    var message :- AsStr(msg);
    var mn :- Path(data, [K("medal_info"), K("medal_name")]);
    var medalName :- AsStr(mn);
    var ml :- Path(data, [K("medal_info"), K("medal_level")]);
    var medalLevel :- AsInt(ml);
    var gl :- Path(data, [K("medal_info"), K("guard_level")]);
    var guard :- GuardLevelOf(gl);
    var face :- Path(data, [K("user_info"), K("face")]);
    var userFace :- AsStr(face);
    Ok(SuperChatMessage(roomId, userMid, userName, price, message, now, medalName, medalLevel, guard, userFace, 0))
  }

  /** `SuperChatMessage.__str__`: "name[mid] 发送了一条醒目留言，他说“message”，价值 price 元". */
  function SuperChatText(s: SuperChatMessage): (r: string)
    ensures StartsWith(r, s.userName + "[" + IntToString(s.userMid) + "] 发送了一条醒目留言，他说“")
    ensures EndsWith(r, "”，价值 " + IntToString(s.price) + " 元")
    ensures var head := s.userName + "[" + IntToString(s.userMid) + "] 发送了一条醒目留言，他说“";
      |r| >= |head| + |s.message| && r[|head|..|head| + |s.message|] == s.message
    ensures |r| == |s.userName + "[" + IntToString(s.userMid) + "] 发送了一条醒目留言，他说“"| + |s.message| +
                   |"”，价值 " + IntToString(s.price) + " 元"|
  {
    var head := s.userName + "[" + IntToString(s.userMid) + "] 发送了一条醒目留言，他说“";
    var tail := "”，价值 " + IntToString(s.price) + " 元";
    var r := head + s.message + tail;
    assert r[..|head|] == head;
    assert r[|r| - |tail|..] == tail;
    assert r[|head|..|head| + |s.message|] == s.message;
    r
  }

  // ------------------------------------------------------------------- gifts

  datatype GiftMessage = GiftMessage(roomId: int, userMid: int, userName: string, giftName: string,
                                     giftNum: int, giftPrice: int, timestamp: int, coinType: string)

  /** `GiftMessage(user_name=..., gift_name=..., gift_num=...)`: every other field at its default. */
  function NewGift(userName: string, giftName: string, giftNum: int): GiftMessage {
    GiftMessage(0, 0, userName, giftName, giftNum, 0, 0, "")
  }

  /**
   * `GiftMessage.parse`; `now` is `int(time.time())`.  It reads the fields
   * of the older `SendGift.parse` in the same order, then the coin type.
   */
  function ParseGift(event: Json, now: int): (r: Res<GiftMessage>)
    ensures r.Ok? ==> r.value.timestamp == now
    ensures r.Ok? ==> Data(event).Ok? && Key(Data(event).value, "coin_type") == Ok(Str(r.value.coinType))
    ensures r.Ok? ==> Key(Data(event).value, "giftName") == Ok(Str(r.value.giftName))
    ensures r.Ok? ==> Key(Data(event).value, "num").Ok? && AsInt(Key(Data(event).value, "num").value) == Ok(r.value.giftNum)
    ensures r.Ok? ==> Key(Data(event).value, "price").Ok? && AsInt(Key(Data(event).value, "price").value) == Ok(r.value.giftPrice)
    ensures r.Ok? ==> Key(Data(event).value, "uid").Ok? && AsInt(Key(Data(event).value, "uid").value) == Ok(r.value.userMid)
    ensures r.Ok? ==> ParseSendGift(event, now) == Ok(SendGift(r.value.roomId, r.value.userMid, r.value.userName,
                                                               r.value.giftName, r.value.giftNum, r.value.giftPrice, now))
    ensures ParseSendGift(event, now).Err? ==> r == Err(ParseSendGift(event, now).error)
  {
    var g :- ParseSendGift(event, now);
    var data := Data(event).value;
    var ct :- Key(data, "coin_type");
    var coinType :- AsStr(ct);
    Ok(GiftMessage(g.roomId, g.userMid, g.userName, g.giftName, g.giftNum, g.giftPrice, now, coinType))
  }

  /** `GiftMessage.__str__`: "name[mid] 赠送了 num 个 gift，价值 price 元". */
  function GiftText(g: GiftMessage): (r: string)
    ensures StartsWith(r, g.userName + "[" + IntToString(g.userMid) + "] 赠送了 " + IntToString(g.giftNum) + " 个 " + g.giftName)
    ensures EndsWith(r, "，价值 " + IntToString(g.giftPrice) + " 元")
    ensures |r| == |g.userName + "[" + IntToString(g.userMid) + "] 赠送了 " + IntToString(g.giftNum) + " 个 " + g.giftName| +
                   |"，价值 " + IntToString(g.giftPrice) + " 元"|
  {
    var head := g.userName + "[" + IntToString(g.userMid) + "] 赠送了 " + IntToString(g.giftNum) + " 个 " + g.giftName;
    var tail := "，价值 " + IntToString(g.giftPrice) + " 元";
    assert (head + tail)[..|head|] == head;
    assert (head + tail)[|head + tail| - |tail|..] == tail;
    head + tail
  }

  // ------------------------------------------------- the older event models

  /** `GuardLevel.get_name` of the older models: a lookup by value, "未知等级" for any other integer. */
  function GetName(level: int): (r: string)
    ensures 0 <= level <= 3 ==> exists g :: Value(g) == level && r == NameCn(g)
    ensures !(0 <= level <= 3) ==> r == "未知等级"
  {
    if level == 0 then NameCn(NoGuard)
    else if level == 1 then NameCn(Governor)
    else if level == 2 then NameCn(Lieutenant)
    else if level == 3 then NameCn(Captain)
    else "未知等级"
  }

  /** Both models name a level alike, so the older `__str__` gives the same text as `DanmuToString`. */
  lemma GetNameAgrees(g: GuardLevel)
    ensures GetName(Value(g)) == NameCn(g)
  {
  }

  /** `get_name` tells the four levels apart from each other and from an unknown level. */
  lemma GetNameInjective(a: int, b: int)
    requires 0 <= a <= 3 && GetName(a) == GetName(b)
    ensures a == b
  {
    var ga :| Value(ga) == a && GetName(a) == NameCn(ga);
    if 0 <= b <= 3 {
      var gb :| Value(gb) == b && GetName(b) == NameCn(gb);
      NameCnInjective(ga, gb);
    } else {
      NameCnInjective(ga, ga);
    }
  }

  /** `SendGift` of the older models: a gift without a coin type. */
  datatype SendGift = SendGift(roomId: int, userMid: int, userName: string, giftName: string,
                               giftNum: int, giftPrice: int, timestamp: int)

  /** `SendGift.parse`; `now` is `int(time.time())`. */
  function ParseSendGift(event: Json, now: int): (r: Res<SendGift>)
    ensures r.Ok? ==> r.value.timestamp == now
    ensures r.Ok? ==> Data(event).Ok?
    ensures r.Ok? ==> Key(Data(event).value, "giftName") == Ok(Str(r.value.giftName))
    ensures r.Ok? ==> Key(Data(event).value, "uname") == Ok(Str(r.value.userName))
    ensures r.Ok? ==> Key(event, "room_display_id").Ok? &&
                      ToInt(Key(event, "room_display_id").value) == Ok(r.value.roomId)
    ensures r.Ok? ==> Key(Data(event).value, "uid").Ok? &&
                      AsInt(Key(Data(event).value, "uid").value) == Ok(r.value.userMid)
    ensures r.Ok? ==> Key(Data(event).value, "num").Ok? &&
                      AsInt(Key(Data(event).value, "num").value) == Ok(r.value.giftNum)
    ensures r.Ok? ==> Key(Data(event).value, "price").Ok? &&
                      AsInt(Key(Data(event).value, "price").value) == Ok(r.value.giftPrice)
  {
    var rid :- Key(event, "room_display_id");
    var roomId :- ToInt(rid);
    var data :- Data(event);
    var uid :- Key(data, "uid");
    var userMid :- AsInt(uid);
    var uname :- Key(data, "uname");
    var userName :- AsStr(uname);
    var gn :- Key(data, "giftName");
    var giftName :- AsStr(gn);
    var n :- Key(data, "num");
    var num :- AsInt(n);
    var p :- Key(data, "price");
    var price :- AsInt(p);
    Ok(SendGift(roomId, userMid, userName, giftName, num, price, now))
  }

}
