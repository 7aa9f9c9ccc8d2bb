/**
 * The live-room supervisor: the credential loaded from the saved cookies,
 * the room connection with its connect task, the once-a-second liveness
 * check that rebuilds a closed connection, and the per-category gates the
 * event handlers apply before announcing an event.
 *
 * Tasks and the timer are handles: a task is cancelled by recording its id,
 * a timer is active or stopped.  What the room reports about itself
 * (closed or not) is an argument of the liveness check.
 */
module BiliService {
  import opened Wrappers
  import opened PyStr
  import opened PyDict
  import opened JsonValue
  import opened Templates
  import opened EventModels

  // ------------------------------------------------------------ credential

  /** `Credential(bili_jct=..., sessdata=..., dedeuserid=...)`. */
  datatype Credential = Credential(biliJct: Json, sessdata: Json, dedeUserId: Json)

  /** The values seen so far for `bili_jct`, `SESSDATA` and `DedeUserID`; None while still unbound. */
  datatype Found = Found(biliJct: Option<Json>, sessdata: Option<Json>, dedeUserId: Option<Json>)

  /** One pass of the cookie loop: look at the cookie's name and keep its value under that name. */
  function ScanStep(acc: Found, cookie: Json): Res<Found> {
    var name :- Key(cookie, "name");
    var acc1 :- if name == Str("bili_jct") then (var v :- Key(cookie, "value"); Ok(acc.(biliJct := Some(v)))) else Ok(acc);
    var acc2 :- if name == Str("SESSDATA") then (var v :- Key(cookie, "value"); Ok(acc1.(sessdata := Some(v)))) else Ok(acc1);
    if name == Str("DedeUserID") then (var v :- Key(cookie, "value"); Ok(acc2.(dedeUserId := Some(v)))) else Ok(acc2)
  }

  /** The cookie loop over the first `n` cookies. */
  function Scan(cookies: seq<Json>, n: nat): Res<Found>
    requires n <= |cookies|
  {
    if n == 0 then Ok(Found(None, None, None))
    else
      var acc :- Scan(cookies, n - 1);
      ScanStep(acc, cookies[n - 1])
  }

  /** The value of the last of the first `n` cookies named `name`. */
  function LastNamed(cookies: seq<Json>, n: nat, name: string): Option<Json>
    requires n <= |cookies|
  {
    if n == 0 then None
    else
      var c := cookies[n - 1];
      if Key(c, "name") == Ok(Str(name)) && Key(c, "value").Ok? then Some(Key(c, "value").value)
      else LastNamed(cookies, n - 1, name)
  }

  /** The last occurrence of each cookie name wins. */
  lemma {:induction false} ScanKeepsLast(cookies: seq<Json>, n: nat)
    requires n <= |cookies| && Scan(cookies, n).Ok?
    ensures Scan(cookies, n).value == Found(LastNamed(cookies, n, "bili_jct"), LastNamed(cookies, n, "SESSDATA"), LastNamed(cookies, n, "DedeUserID"))
  {
    if n > 0 {
      assert Scan(cookies, n - 1).Ok?;
      ScanKeepsLast(cookies, n - 1);
      var c := cookies[n - 1];
      ScanStepKeeps(Scan(cookies, n - 1).value, c);
      LastNamedStep(cookies, n, "bili_jct");
      LastNamedStep(cookies, n, "SESSDATA");
      LastNamedStep(cookies, n, "DedeUserID");
    }
  }

  /** One more cookie: its value when it carries the name, the earlier one otherwise. */
  lemma LastNamedStep(cookies: seq<Json>, n: nat, name: string)
    requires 0 < n <= |cookies|
    ensures LastNamed(cookies, n, name) == Pick(LastNamed(cookies, n - 1, name), cookies[n - 1], name)
  {
  }

  /** The value a cookie leaves under `name`: its own when it has that name, otherwise the earlier one. */
  function Pick(earlier: Option<Json>, cookie: Json, name: string): Option<Json> {
    if Key(cookie, "name") == Ok(Str(name)) && Key(cookie, "value").Ok? then Some(Key(cookie, "value").value) else earlier
  }

  /** A successful pass replaces exactly the value of the cookie's own name. */
  lemma ScanStepKeeps(acc: Found, cookie: Json)
    requires ScanStep(acc, cookie).Ok?
    ensures ScanStep(acc, cookie).value ==
      Found(Pick(acc.biliJct, cookie, "bili_jct"), Pick(acc.sessdata, cookie, "SESSDATA"), Pick(acc.dedeUserId, cookie, "DedeUserID"))
  {
  }

  /**
   * `assert bili_jct and sessdata and dedeuserid`: an unbound name is a
   * NameError, a falsy value an AssertionError, checked left to right.
   */
  function CheckFound(f: Found): (r: Res<Credential>)
    ensures r.Ok? <==> f.biliJct.Some? && Truthy(f.biliJct.value) && f.sessdata.Some? && Truthy(f.sessdata.value) &&
                       f.dedeUserId.Some? && Truthy(f.dedeUserId.value)
    ensures r.Ok? ==> r.value == Credential(f.biliJct.value, f.sessdata.value, f.dedeUserId.value)
  {
    if f.biliJct.None? then Err(NameError)
    else if !Truthy(f.biliJct.value) then Err(AssertionError)
    else if f.sessdata.None? then Err(NameError)
    else if !Truthy(f.sessdata.value) then Err(AssertionError)
    else if f.dedeUserId.None? then Err(NameError)
    else if !Truthy(f.dedeUserId.value) then Err(AssertionError)
    else Ok(Credential(f.biliJct.value, f.sessdata.value, f.dedeUserId.value))
  }

  /** The cookie list inside the saved cookie file. */
  function CookieList(saved: Json): Res<seq<Json>> {
    var list :- Path(saved, [K("cookie_info"), K("cookies")]);
    Iter(list)
  }

  /** `load_credential` on the parsed cookie file. */
  function CredentialSpec(saved: Json): Res<Credential> {
    var cookies :- CookieList(saved);
    var found :- Scan(cookies, |cookies|);
    CheckFound(found)
  }

  /**
   * A credential is loaded exactly when the cookie list can be read and
   * scanned and the last `bili_jct`, `SESSDATA` and `DedeUserID` values are
   * all present and truthy; it is built from exactly those values.
   */
  lemma LoadCredentialCorrect(saved: Json)
    ensures CredentialSpec(saved).Ok? <==>
      (CookieList(saved).Ok? && Scan(CookieList(saved).value, |CookieList(saved).value|).Ok? &&
       var cs := CookieList(saved).value;
       var jct, sess, uid := LastNamed(cs, |cs|, "bili_jct"), LastNamed(cs, |cs|, "SESSDATA"), LastNamed(cs, |cs|, "DedeUserID");
       jct.Some? && Truthy(jct.value) && sess.Some? && Truthy(sess.value) && uid.Some? && Truthy(uid.value))
    ensures CredentialSpec(saved).Ok? ==>
      var cs := CookieList(saved).value;
      CredentialSpec(saved).value ==
        Credential(LastNamed(cs, |cs|, "bili_jct").value, LastNamed(cs, |cs|, "SESSDATA").value, LastNamed(cs, |cs|, "DedeUserID").value)
  {
    var cl := CookieList(saved);
    if cl.Ok? && Scan(cl.value, |cl.value|).Ok? {
      ScanKeepsLast(cl.value, |cl.value|);
    }
  }

  /** The cookie loop of `load_credential`: later cookies overwrite earlier ones of the same name. */
  method LoadCredential(saved: Json) returns (r: Res<Credential>)
    ensures r == CredentialSpec(saved)
  {
    var cookies :- CookieList(saved);
    var found := Found(None, None, None);
    for i := 0 to |cookies|
      invariant Scan(cookies, i) == Ok(found)
    {
      var cookie := cookies[i];
      var step := ScanStep(found, cookie);
      if step.Err? {
        ScanErrorSticks(cookies, i + 1);
        return Err(step.error);
      }
      found := step.value;
    }
    r := CheckFound(found);
  }

  /** Once the loop has raised, it stays raised. */
  lemma {:induction false} ScanErrorSticks(cookies: seq<Json>, n: nat)
    requires 0 < n <= |cookies| && Scan(cookies, n).Err?
    ensures Scan(cookies, |cookies|) == Err(Scan(cookies, n).error)
    decreases |cookies| - n
  {
    if n < |cookies| {
      ScanErrorSticks(cookies, n + 1);
    }
  }

  // ------------------------------------------------------------ event gates

  /** What a handler does with an event: nothing, or show and speak a text. */
  datatype Reaction = Ignored | Announce(text: Text)

  /** `on_danmaku`: when normal danmaku are off it returns before parsing. */
  function OnDanmaku(on: bool, template: string, event: Json, loads: string -> Res<Json>): (r: Res<Reaction>)
    ensures !on ==> r == Ok(Ignored)
    ensures on ==> (r.Ok? <==> DanmuSpec(event, loads).Ok?)
    ensures on && r.Ok? ==> r.value == Announce(Format(template,
      [("user_name", DanmuSpec(event, loads).value.userName), ("message", DanmuSpec(event, loads).value.message)]))
  {
    if !on then Ok(Ignored)
    else
      var m :- DanmuSpec(event, loads);
      Ok(Announce(Format(template, [("user_name", m.userName), ("message", m.message)])))
  }

  /**
   * The value test of `on_send_gift`, `gift_price / 1000 * gift_num < threshold`,
   * in exact real arithmetic; the program computes it in binary floating
   * point, which rounds.
   */
  predicate BelowThreshold(g: GiftMessage, threshold: int) {
    (g.giftPrice as real / 1000.0) * (g.giftNum as real) < threshold as real
  }

  /** The exact value test in integers: a gift is dropped exactly when `price × num < threshold × 1000`. */
  lemma BelowThresholdInMilli(g: GiftMessage, threshold: int)
    ensures BelowThreshold(g, threshold) <==> g.giftPrice * g.giftNum < threshold * 1000
  {
    var p, n, t := g.giftPrice as real, g.giftNum as real, threshold as real;
    assert (p / 1000.0) * n == (p * n) / 1000.0;
    assert (g.giftPrice * g.giftNum) as real == p * n;
    assert (threshold * 1000) as real == t * 1000.0;
  }

  /**
   * `on_send_gift`: the gift is parsed first; a "silver" gift is dropped
   * while free gifts are off; a gift whose value in yuan is below the
   * threshold is dropped; any other is announced.
   */
  function OnSendGift(freeGiftOn: bool, threshold: int, template: string, event: Json, now: int): (r: Res<Reaction>)
    ensures r.Ok? <==> ParseGift(event, now).Ok?
    ensures r.Ok? ==> var g := ParseGift(event, now).value;
      (r.value.Announce? <==> (freeGiftOn || g.coinType != "silver") && g.giftPrice * g.giftNum >= threshold * 1000)
    ensures r.Ok? && r.value.Announce? ==> var g := ParseGift(event, now).value;
      r.value.text == Format(template, [("user_name", g.userName), ("gift_name", g.giftName), ("gift_num", IntToString(g.giftNum))])
  {
    var g :- ParseGift(event, now);
    BelowThresholdInMilli(g, threshold);
    if !freeGiftOn && g.coinType == "silver" then Ok(Ignored)
    else if BelowThreshold(g, threshold) then Ok(Ignored)
    else Ok(Announce(Format(template, [("user_name", g.userName), ("gift_name", g.giftName), ("gift_num", IntToString(g.giftNum))])))
  }

  /** `on_guard_buy`: when guard announcements are off it returns before parsing. */
  function OnGuardBuy(on: bool, template: string, event: Json, now: int): (r: Res<Reaction>)
    ensures !on ==> r == Ok(Ignored)
    ensures on ==> (r.Ok? <==> ParseGuardBuy(event, now).Ok?)
    ensures on && r.Ok? ==> r.value == Announce(Format(template,
      [("user_name", ParseGuardBuy(event, now).value.userName), ("guard_name", NameCn(ParseGuardBuy(event, now).value.guardLevel))]))
  {
    if !on then Ok(Ignored)
    else
      var g :- ParseGuardBuy(event, now);
      Ok(Announce(Format(template, [("user_name", g.userName), ("guard_name", NameCn(g.guardLevel))])))
  }

  /** `on_super_chat_message`: when super chats are off it returns before parsing. */
  function OnSuperChat(on: bool, template: string, event: Json, now: int): (r: Res<Reaction>)
    ensures !on ==> r == Ok(Ignored)
    ensures on ==> (r.Ok? <==> ParseSuperChat(event, now).Ok?)
    ensures on && r.Ok? ==> r.value == Announce(Format(template,
      [("user_name", ParseSuperChat(event, now).value.userName), ("message", ParseSuperChat(event, now).value.message)]))
  {
    if !on then Ok(Ignored)
    else
      var s :- ParseSuperChat(event, now);
      Ok(Announce(Format(template, [("user_name", s.userName), ("message", s.message)])))
  }

  // ------------------------------------------------------------ supervisor

  /** A `LiveDanmaku` connection object, with its listeners attached. */
  datatype Room = Room(serial: nat, roomId: int, credential: Option<Credential>, listening: bool)

  /** The task running `room.connect()` for the room with serial `room`. */
  datatype Task = Task(id: nat, room: nat)

  /** The status-check timer. */
  datatype Timer = Timer(intervalMs: int, active: bool)

  /** The interval of the liveness check. */
  const StatusCheckMs := 1000

  /** `status_check_timer.stop()` when there is a timer. */
  function TimerAfterStop(t: Option<Timer>): (r: Option<Timer>)
    ensures r.Some? <==> t.Some?
    ensures r.Some? ==> !r.value.active && r.value.intervalMs == t.value.intervalMs
  {
    if t.Some? then Some(t.value.(active := false)) else None
  }

  /**
   * The timer step of `run` as written: a timer is created and started
   * only when there is none; an existing one is left as it is, even when
   * `stop` has stopped it.
   */
  function TimerAfterRunAsWritten(t: Option<Timer>): (r: Option<Timer>)
    ensures r.Some?
    ensures t.None? ==> r.value.active && r.value.intervalMs == StatusCheckMs
    ensures t.Some? ==> r == t
  {
    if t.None? then Some(Timer(StatusCheckMs, true)) else t
  }

  /** A stop followed by a run, as written, leaves the liveness check switched off. */
  lemma StopThenRunAsWrittenLeavesTimerStopped()
    ensures var t := TimerAfterRunAsWritten(TimerAfterStop(TimerAfterRunAsWritten(None)));
      t.Some? && !t.value.active
  {
  }

  /** The timer step of `run` as intended: create the timer when there is none, and (re)start it. */
  function TimerAfterRun(t: Option<Timer>): (r: Option<Timer>)
    ensures r.Some? && r.value.active
    ensures t.None? ==> r == Some(Timer(StatusCheckMs, true))
    ensures t.Some? ==> r.value.intervalMs == t.value.intervalMs
  {
    if t.None? then Some(Timer(StatusCheckMs, true)) else Some(t.value.(active := true))
  }

  /** With the intended step, the liveness check runs after every run, including one after a stop. */
  lemma RunAfterStopRestartsTimer(t: Option<Timer>)
    ensures TimerAfterRun(TimerAfterStop(t)).value.active
    ensures t.Some? ==> TimerAfterRun(TimerAfterStop(t)) == Some(t.value.(active := true))
  {
  }

  class Service {
    var credential: Option<Credential>
    var room: Option<Room>
    var runTask: Option<Task>
    var timer: Option<Timer>
    /** Ids of the tasks cancelled so far. */
    var cancelled: set<nat>
    var nextId: nat

    /** The current task, if any, connects the current room and has not been cancelled. */
    ghost predicate Valid()
      reads this
    {
      (runTask.Some? ==> room.Some? && runTask.value.room == room.value.serial && runTask.value.id !in cancelled &&
                         runTask.value.id < nextId) &&
      (room.Some? ==> room.value.serial < nextId) &&
      (forall id :: id in cancelled ==> id < nextId)
    }

    constructor()
      ensures Valid()
      ensures credential == None && room == None && runTask == None && timer == None && cancelled == {}
    {
      credential := None;
      room := None;
      runTask := None;
      timer := None;
      cancelled := {};
      nextId := 0;
    }

    /** `is_logged_in`: a credential is held. */
    function IsLoggedIn(): (b: bool)
      reads this
      ensures b <==> credential != None
    {
      credential.Some?
    }

    /**
     * `run`: load the credential (a failure raises and changes nothing),
     * build the room for `roomId` with that credential and its listeners,
     * start its connect task, and create and start the liveness timer
     * only when there is none (see `TimerAfterRunAsWritten`): a timer that
     * `Stop` stopped stays stopped.  A previous connect task is not
     * cancelled.
     */
    method Run(saved: Json, roomId: int) returns (r: Res<()>)
      requires Valid()
      modifies this
      ensures Valid()
      ensures r.Err? <==> CredentialSpec(saved).Err?
      ensures r.Err? ==> credential == old(credential) && room == old(room) && runTask == old(runTask) &&
                         timer == old(timer) && nextId == old(nextId)
      ensures r.Ok? ==> IsLoggedIn() && credential == Some(CredentialSpec(saved).value)
      ensures r.Ok? ==> room == Some(Room(old(nextId), roomId, credential, true)) &&
                        runTask == Some(Task(old(nextId) + 1, old(nextId))) && nextId == old(nextId) + 2
      ensures r.Ok? ==> timer == TimerAfterRunAsWritten(old(timer))
      ensures cancelled == old(cancelled)
    {
      var c := LoadCredential(saved);
      if c.Err? {
        return Err(c.error);
      }
      Connect(c.value, roomId);
      return Ok(());
    }

    /** The part of `run` after the credential is loaded: a new room, its connect task, and the timer. */
    method Connect(c: Credential, roomId: int)
      requires Valid()
      modifies this
      ensures Valid() && credential == Some(c) && cancelled == old(cancelled)
      ensures room == Some(Room(old(nextId), roomId, Some(c), true))
      ensures runTask == Some(Task(old(nextId) + 1, old(nextId))) && nextId == old(nextId) + 2
      ensures timer == TimerAfterRunAsWritten(old(timer))
    {
      credential := Some(c);
      room := Some(Room(nextId, roomId, credential, true));
      runTask := Some(Task(nextId + 1, nextId));
      nextId := nextId + 2;
      timer := TimerAfterRunAsWritten(timer);
    }

    /**
     * `_check_room_status`: nothing happens without a connect task and a
     * room, nor while the room is open.  A closed room's task is cancelled
     * and a new room for `roomId` with the current credential and its
     * listeners replaces it, with a new connect task.
     */
    method CheckRoomStatus(roomClosed: bool, roomId: int)
      requires Valid()
      modifies this
      ensures Valid()
      ensures old(runTask).None? || old(room).None? || !roomClosed ==>
        room == old(room) && runTask == old(runTask) && cancelled == old(cancelled) && nextId == old(nextId)
      ensures old(runTask).Some? && old(room).Some? && roomClosed ==>
        cancelled == old(cancelled) + {old(runTask).value.id} &&
        room == Some(Room(old(nextId), roomId, credential, true)) &&
        runTask == Some(Task(old(nextId) + 1, old(nextId))) && nextId == old(nextId) + 2
      ensures credential == old(credential) && timer == old(timer)
    {
      if runTask.None? || room.None? {
        return;
      }
      if roomClosed {
        cancelled := cancelled + {runTask.value.id};
        room := Some(Room(nextId, roomId, credential, true));
        runTask := Some(Task(nextId + 1, nextId));
        nextId := nextId + 2;
      }
    }

    /**
     * `stop`: cancel and forget the connect task, and stop the timer, which
     * is kept.  With no task left, later liveness checks do nothing.
     */
    method Stop()
      requires Valid()
      modifies this
      ensures Valid()
      ensures runTask == None
      ensures old(runTask).Some? ==> cancelled == old(cancelled) + {old(runTask).value.id}
      ensures old(runTask).None? ==> cancelled == old(cancelled)
      ensures timer == TimerAfterStop(old(timer))
      ensures credential == old(credential) && room == old(room) && nextId == old(nextId)
    {
      if runTask.Some? {
        cancelled := cancelled + {runTask.value.id};
        runTask := None;
      }
      timer := TimerAfterStop(timer);
    }

    /** `logout`: stop, then forget the credential, the room, the task and the timer. */
    method Logout()
      requires Valid()
      modifies this
      ensures Valid()
      ensures !IsLoggedIn() && credential == None && room == None && runTask == None && timer == None
      ensures old(runTask).Some? ==> cancelled == old(cancelled) + {old(runTask).value.id}
      ensures old(runTask).None? ==> cancelled == old(cancelled)
    {
      Stop();
      credential := None;
      room := None;
      runTask := None;
      timer := None;
    }
  }

  /**
   * The smaller service class of the second service file: the same
   * credential loading, and a `run` that builds the room without listeners
   * and then awaits its connection in place, with no connect task and no
   * liveness timer.
   */
  class PlainService {
    var credential: Option<Credential>
    var room: Option<Room>
    /** The serial the next room gets. */
    var nextId: nat

    constructor()
      ensures credential == None && room == None && nextId == 0
    {
      credential := None;
      room := None;
      nextId := 0;
    }

    /**
     * `run`: a credential that cannot be loaded raises before anything is
     * assigned; otherwise the credential is kept and a new room for `roomId`
     * is built with it.  The awaited connection is not modelled.
     */
    method Run(saved: Json, roomId: int) returns (r: Res<()>)
      modifies this
      ensures r.Err? <==> CredentialSpec(saved).Err?
      ensures r.Err? ==> r.error == CredentialSpec(saved).error
      ensures r.Err? ==> credential == old(credential) && room == old(room) && nextId == old(nextId)
      ensures r.Ok? ==> credential == Some(CredentialSpec(saved).value)
      ensures r.Ok? ==> room == Some(Room(old(nextId), roomId, credential, false)) && nextId == old(nextId) + 1
    {
      var c := LoadCredential(saved);
      if c.Err? {
        return Err(c.error);
      }
      credential := Some(c.value);
      room := Some(Room(nextId, roomId, credential, false));
      nextId := nextId + 1;
      return Ok(());
    }
  }
}
