/**
 * The recent-messages card: a bounded first-in first-out buffer of
 * time-stamped messages and a fixed column of labels that shows it.
 *
 * The buffer behaves as a `deque` with a maximum length: appending to a
 * full buffer drops the oldest entry.  The clock reading that stamps a
 * message is a parameter.
 */
module MessageDisplay {

  /** The last `n` elements of `s`, or all of `s` when it is shorter. */
  function LastN<T>(s: seq<T>, n: nat): (r: seq<T>)
    ensures |r| <= n && |r| <= |s|
    ensures |s| <= n ==> r == s
    ensures |s| > n ==> |r| == n
    ensures forall i :: 0 <= i < |r| ==> r[i] == s[|s| - |r| + i]
  {
    if |s| <= n then s else s[|s| - n..]
  }

  /** Keeping the last `n` before an append loses nothing the append keeps. */
  lemma LastNAppend<T>(s: seq<T>, x: T, n: nat)
    ensures LastN(LastN(s, n) + [x], n) == LastN(s + [x], n)
  {
    var a, b := LastN(LastN(s, n) + [x], n), LastN(s + [x], n);
    assert |a| == |b|;
    forall i | 0 <= i < |a|
      ensures a[i] == b[i]
    {
      if i == |a| - 1 {
      } else {
        var t := LastN(s, n);
        assert a[i] == (t + [x])[|t| + 1 - |a| + i];
      }
    }
  }

  /** The text of one entry: "[" timestamp "]:" message. */
  function Entry(timestamp: string, message: string): (r: string)
    ensures |r| == |timestamp| + |message| + 3
    ensures r[0] == '[' && r[1..|timestamp| + 1] == timestamp && r[|timestamp| + 1..|timestamp| + 3] == "]:"
    ensures r[|timestamp| + 3..] == message
  {
    "[" + timestamp + "]:" + message
  }

  class MessageDisplayCard {
    const maxLines: nat
    /** The labels, one per line. */
    const labels: array<string>
    /** The messages shown, oldest first. */
    var messages: seq<string>
    /** Every entry added since the card was made or last cleared. */
    ghost var arrived: seq<string>

    /** The buffer holds the last `maxLines` entries that arrived, in arrival order. */
    ghost predicate Valid()
      reads this
    {
      labels.Length == maxLines && messages == LastN(arrived, maxLines)
    }

    /** Label `i` shows message `i`, and the labels past the last message are blank. */
    predicate Shows()
      reads this, labels
    {
      forall i :: 0 <= i < labels.Length ==> labels[i] == (if i < |messages| then messages[i] else "")
    }

    constructor(maxLines: nat)
      ensures Valid() && Shows() && fresh(labels)
      ensures this.maxLines == maxLines && messages == [] && arrived == []
    {
      this.maxLines := maxLines;
      labels := new string[maxLines](_ => "");
      messages := [];
      arrived := [];
    }

    /** `_update_display`: copy the buffer onto the labels, blanking the rest. */
    method UpdateDisplay()
      modifies labels
      ensures Shows()
    {
      for i := 0 to labels.Length
        invariant forall j :: 0 <= j < i ==> labels[j] == (if j < |messages| then messages[j] else "")
      {
        if i < |messages| {
          labels[i] := messages[i];
        } else {
          labels[i] := "";
        }
      }
    }

    /** `add_message`: append the stamped entry, dropping the oldest when full, and redisplay. */
    method AddMessage(timestamp: string, message: string)
      requires Valid()
      modifies this, labels
      ensures Valid() && Shows()
      ensures arrived == old(arrived) + [Entry(timestamp, message)]
      ensures messages == LastN(old(messages) + [Entry(timestamp, message)], maxLines)
      ensures |messages| <= maxLines
    {
      var entry := Entry(timestamp, message);
      LastNAppend(arrived, entry, maxLines);
      messages := LastN(messages + [entry], maxLines);
      arrived := arrived + [entry];
      UpdateDisplay();
    }

    /** `clear_messages`: empty the buffer and blank every label. */
    method ClearMessages()
      requires Valid()
      modifies this, labels
      ensures Valid() && Shows()
      ensures messages == [] && arrived == []
      ensures forall i :: 0 <= i < labels.Length ==> labels[i] == ""
    {
      messages := [];
      arrived := [];
      UpdateDisplay();
    }
  }

  /** With room to spare nothing is dropped; a full buffer drops exactly its oldest entry. */
  lemma AppendDropsOldest<T>(s: seq<T>, x: T, n: nat)
    requires |s| <= n
    ensures |s| < n ==> LastN(s + [x], n) == s + [x]
    ensures |s| == n && n > 0 ==> LastN(s + [x], n) == s[1..] + [x]
  {
  }
}
