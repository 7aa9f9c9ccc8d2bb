/**
 * The chat-control card: the listening flag, the status label and the
 * start/stop buttons that follow it, the reconnect action, and the list of
 * recent chat lines capped at 100.
 *
 * Signals the card emits are recorded in order; the reconnect's delayed
 * start is recorded as a scheduled signal with its delay in milliseconds.
 */
module DanmakuControl {
  import opened MessageDisplay

  const MaxItems: nat := 100
  const ReconnectDelayMs: nat := 500

  const ConnectedText: string := "状态: 已连接 \U{1F7E2}"
  const DisconnectedText: string := "状态: 已断开 \U{2B55}"

  datatype Signal = StartListening | StopListening

  /** The display text of a chat line: "timestamp user: message", or "user: message" without a timestamp. */
  function Line(userName: string, message: string, timestamp: string): (r: string)
    ensures timestamp != [] ==> r == timestamp + " " + userName + ": " + message
    ensures timestamp == [] ==> r == userName + ": " + message
  {
    if timestamp != [] then timestamp + " " + userName + ": " + message else userName + ": " + message
  }

  /** Both forms end with the user name, ": " and the message. */
  lemma LineEndsWithMessage(userName: string, message: string, timestamp: string)
    ensures var r := Line(userName, message, timestamp); var tail := userName + ": " + message;
      |r| >= |tail| && r[|r| - |tail|..] == tail
  {
    var r := Line(userName, message, timestamp);
    var tail := userName + ": " + message;
    if timestamp != [] {
      assert r == (timestamp + " ") + tail;
    }
  }

  /** `add_danmaku` on the list: append, then drop the first item when there are more than 100. */
  function Added(items: seq<string>, line: string): (r: seq<string>)
    ensures |items| < MaxItems ==> r == items + [line]
    ensures |items| >= MaxItems ==> r == items[1..] + [line]
  {
    var s := items + [line];
    if |s| > MaxItems then s[1..] else s
  }

  /** A list of at most 100 items stays at most 100 and holds the newest of them and the new line. */
  lemma AddedKeepsNewest(items: seq<string>, line: string)
    requires |items| <= MaxItems
    ensures Added(items, line) == LastN(items + [line], MaxItems)
    ensures |Added(items, line)| <= MaxItems
  {
  }

  class DanmakuControlCard {
    var isListening: bool
    var statusText: string
    var startEnabled: bool
    var stopEnabled: bool
    var items: seq<string>
    /** The signals emitted so far. */
    var emitted: seq<Signal>
    /** The signals scheduled for later, with their delays. */
    var scheduled: seq<(nat, Signal)>

    /** The status label and the buttons show the listening flag: start only when disconnected, stop only when connected. */
    predicate Valid()
      reads this
    {
      statusText == (if isListening then ConnectedText else DisconnectedText) &&
      startEnabled == !isListening && stopEnabled == isListening
    }

    constructor()
      ensures Valid() && !isListening && items == [] && emitted == [] && scheduled == []
    {
      isListening := false;
      statusText := DisconnectedText;
      startEnabled, stopEnabled := true, false;
      items, emitted, scheduled := [], [], [];
    }

    /** `_update_status`. */
    method UpdateStatus(connected: bool)
      modifies this
      ensures statusText == (if connected then ConnectedText else DisconnectedText)
      ensures startEnabled == !connected && stopEnabled == connected
      ensures isListening == old(isListening) && items == old(items)
      ensures emitted == old(emitted) && scheduled == old(scheduled)
    {
      if connected {
        statusText := ConnectedText;
        startEnabled, stopEnabled := false, true;
      } else {
        statusText := DisconnectedText;
        startEnabled, stopEnabled := true, false;
      }
    }

    /** `_on_start_listening`: emit start, then mark the card listening. */
    method OnStartListening()
      modifies this
      ensures Valid() && isListening
      ensures emitted == old(emitted) + [StartListening]
      ensures items == old(items) && scheduled == old(scheduled)
    {
      emitted := emitted + [StartListening];
      isListening := true;
      UpdateStatus(true);
    }

    /** `_on_stop_listening`: emit stop, then mark the card idle. */
    method OnStopListening()
      modifies this
      ensures Valid() && !isListening
      ensures emitted == old(emitted) + [StopListening]
      ensures items == old(items) && scheduled == old(scheduled)
    {
      emitted := emitted + [StopListening];
      isListening := false;
      UpdateStatus(false);
    }

    /**
     * `_on_reconnect`: only while listening, emit stop and schedule start
     * after 500 ms; the listening flag and the display do not change.
     */
    method OnReconnect()
      requires Valid()
      modifies this
      ensures Valid()
      ensures isListening == old(isListening) && items == old(items)
      ensures old(isListening) ==> emitted == old(emitted) + [StopListening] &&
                                   scheduled == old(scheduled) + [(ReconnectDelayMs, StartListening)]
      ensures !old(isListening) ==> emitted == old(emitted) && scheduled == old(scheduled)
    {
      if isListening {
        emitted := emitted + [StopListening];
        scheduled := scheduled + [(ReconnectDelayMs, StartListening)];
      }
    }

    /** `set_connected`: the flag and the display take the given state; nothing is emitted. */
    method SetConnected(connected: bool)
      modifies this
      ensures Valid() && isListening == connected
      ensures items == old(items) && emitted == old(emitted) && scheduled == old(scheduled)
    {
      isListening := connected;
      UpdateStatus(connected);
    }

    /** `add_danmaku`. */
    method AddDanmaku(userName: string, message: string, timestamp: string)
      modifies this
      ensures items == Added(old(items), Line(userName, message, timestamp))
      ensures isListening == old(isListening) && statusText == old(statusText)
      ensures startEnabled == old(startEnabled) && stopEnabled == old(stopEnabled)
      ensures emitted == old(emitted) && scheduled == old(scheduled)
    {
      var text := Line(userName, message, timestamp);
      items := items + [text];
      if |items| > MaxItems {
        items := items[1..];
      }
    }

    /** `clear_danmaku`. */
    method ClearDanmaku()
      modifies this
      ensures items == []
      ensures isListening == old(isListening) && statusText == old(statusText)
      ensures startEnabled == old(startEnabled) && stopEnabled == old(stopEnabled)
      ensures emitted == old(emitted) && scheduled == old(scheduled)
    {
      items := [];
    }
  }
}
