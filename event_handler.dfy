/**
 * The ordered handler registry: five lists of handlers, one per event
 * category, each filled by registration and run in registration order.
 *
 * A handler is identified by a number; what it does is left out, except
 * whether it raises on the event at hand, which `trigger` is given.
 */
module EventRegistry {
  import opened Wrappers

  datatype Category = ClientInit | Danmaku | Gift | GuardBuy | SuperChat

  type Handler = nat

  /**
   * The handlers a trigger runs, in order: all of them when none raises,
   * otherwise those up to and including the first that raises.
   */
  function RunUntilRaise(hs: seq<Handler>, raises: Handler -> bool): seq<Handler> {
    if hs == [] then []
    else if raises(hs[0]) then [hs[0]]
    else [hs[0]] + RunUntilRaise(hs[1..], raises)
  }

  /**
   * The handlers run are a prefix of the list; none but the last raises;
   * with no raising handler it is the whole list, otherwise it ends with
   * one that raises.
   */
  lemma {:induction false} RunUntilRaiseSpec(hs: seq<Handler>, raises: Handler -> bool)
    ensures var ran := RunUntilRaise(hs, raises);
      |ran| <= |hs| && ran == hs[..|ran|] &&
      (forall i :: 0 <= i < |ran| - 1 ==> !raises(ran[i])) &&
      ((forall h :: h in hs ==> !raises(h)) ==> ran == hs) &&
      ((exists h :: h in hs && raises(h)) ==> ran != [] && raises(ran[|ran| - 1]))
  {
    RunIsPrefix(hs, raises);
    if forall h :: h in hs ==> !raises(h) {
      RunWhole(hs, raises);
    }
    if exists h :: h in hs && raises(h) {
      RunEndsRaising(hs, raises);
    }
  }

  /** The handlers run are a prefix of the list, and none but the last raises. */
  lemma {:induction false} RunIsPrefix(hs: seq<Handler>, raises: Handler -> bool)
    ensures var ran := RunUntilRaise(hs, raises);
      |ran| <= |hs| && ran == hs[..|ran|] && forall i :: 0 <= i < |ran| - 1 ==> !raises(ran[i])
  {
    if hs != [] && !raises(hs[0]) {
      RunIsPrefix(hs[1..], raises);
      var rest := RunUntilRaise(hs[1..], raises);
      assert RunUntilRaise(hs, raises) == [hs[0]] + rest;
      assert hs[..|rest| + 1] == [hs[0]] + hs[1..][..|rest|];
    }
  }

  /** With no raising handler every handler runs. */
  lemma {:induction false} RunWhole(hs: seq<Handler>, raises: Handler -> bool)
    requires forall h :: h in hs ==> !raises(h)
    ensures RunUntilRaise(hs, raises) == hs
  {
    if hs != [] {
      assert hs[0] in hs;
      assert forall h :: h in hs[1..] ==> h in hs;
      RunWhole(hs[1..], raises);
    }
  }

  /** With a raising handler the run ends with one that raises. */
  lemma {:induction false} RunEndsRaising(hs: seq<Handler>, raises: Handler -> bool)
    requires exists h :: h in hs && raises(h)
    ensures var ran := RunUntilRaise(hs, raises); ran != [] && raises(ran[|ran| - 1])
  {
    if !raises(hs[0]) {
      var h :| h in hs && raises(h);
      assert hs == [hs[0]] + hs[1..];
      assert h in hs[1..];
      RunEndsRaising(hs[1..], raises);
    }
  }

  /** A trigger raises exactly when one of the handlers raises, and then with the last handler run. */
  predicate Raised(hs: seq<Handler>, raises: Handler -> bool) {
    exists h :: h in hs && raises(h)
  }

  /** A handler registered twice runs twice when nothing raises. */
  lemma {:induction false} RegisteredTwiceRunsTwice(hs: seq<Handler>, f: Handler, raises: Handler -> bool)
    requires !Raised(hs + [f, f], raises)
    ensures multiset(RunUntilRaise(hs + [f, f], raises))[f] == multiset(hs)[f] + 2
  {
    var all := hs + [f, f];
    RunUntilRaiseSpec(all, raises);
    assert RunUntilRaise(all, raises) == all;
    assert multiset(all) == multiset(hs) + multiset{f, f};
  }

  /** Handlers after the first raising one do not run. */
  lemma {:induction false} LaterHandlersSkipped(hs: seq<Handler>, raises: Handler -> bool, k: nat)
    requires k < |hs| && raises(hs[k]) && forall i :: 0 <= i < k ==> !raises(hs[i])
    ensures RunUntilRaise(hs, raises) == hs[..k + 1]
    decreases k
  {
    if k > 0 {
      LaterHandlersSkipped(hs[1..], raises, k - 1);
      assert hs[..k + 1] == [hs[0]] + hs[1..][..k];
    }
  }

  class EventHandler {
    var clientInit: seq<Handler>
    var danmaku: seq<Handler>
    var gift: seq<Handler>
    var guardBuy: seq<Handler>
    var superChat: seq<Handler>

    /** The list of one category. */
    function Handlers(c: Category): seq<Handler>
      reads this
    {
      match c
      case ClientInit => clientInit
      case Danmaku => danmaku
      case Gift => gift
      case GuardBuy => guardBuy
      case SuperChat => superChat
    }

    /** A new registry has five empty lists. */
    constructor()
      ensures forall c :: Handlers(c) == []
    {
      clientInit, danmaku, gift, guardBuy, superChat := [], [], [], [], [];
    }

    /** `on_*`: append to the category's own list and hand the function back unchanged. */
    method On(c: Category, f: Handler) returns (r: Handler)
      modifies this
      ensures r == f
      ensures Handlers(c) == old(Handlers(c)) + [f]
      ensures forall d :: d != c ==> Handlers(d) == old(Handlers(d))
    {
      match c {
        case ClientInit => clientInit := clientInit + [f];
        case Danmaku => danmaku := danmaku + [f];
        case Gift => gift := gift + [f];
        case GuardBuy => guardBuy := guardBuy + [f];
        case SuperChat => superChat := superChat + [f];
      }
      return f;
    }

    /**
     * `trigger_*`: await every handler of the category in registration
     * order; the first one that raises ends the trigger with its exception.
     */
    method Trigger(c: Category, raises: Handler -> bool) returns (ran: seq<Handler>, raised: bool)
      ensures ran == RunUntilRaise(Handlers(c), raises)
      ensures raised <==> Raised(Handlers(c), raises)
    {
      var hs := Handlers(c);
      ran := [];
      var i := 0;
      while i < |hs|
        invariant 0 <= i <= |hs|
        invariant ran == hs[..i]
        invariant forall j :: 0 <= j < i ==> !raises(hs[j])
      {
        ran := ran + [hs[i]];
        assert ran == hs[..i + 1];
        if raises(hs[i]) {
          LaterHandlersSkipped(hs, raises, i);
          assert hs[i] in hs;
          return ran, true;
        }
        i := i + 1;
      }
      assert ran == hs;
      assert !Raised(hs, raises) by {
        forall h | h in hs
          ensures !raises(h)
        {
          var j :| 0 <= j < |hs| && hs[j] == h;
        }
      }
      RunWhole(hs, raises);
      return ran, false;
    }
  }

  /** The module singleton: an existing registry is kept, otherwise a new one is made. */
  method Singleton(existing: Option<EventHandler>) returns (g: EventHandler)
    ensures existing.Some? ==> g == existing.value
    ensures existing.None? ==> fresh(g) && forall c :: g.Handlers(c) == []
  {
    if existing.Some? {
      return existing.value;
    }
    g := new EventHandler();
  }
}
