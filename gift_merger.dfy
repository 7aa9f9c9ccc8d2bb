/**
 * The gift merger: repeated gifts of the same kind from the same user are
 * collected into one group and announced once, after the group has been
 * quiet for its window.  The window starts at an initial length and grows
 * by an increment on every repeat gift, up to a maximum.
 *
 * Times and windows are integer milliseconds; the periodic timer tick is an
 * explicit call carrying the current time.  Announcing a gift renders the
 * configured text, hands it to the display and to speech, and queues the
 * audio; the model records each announcement in order.
 */
module GiftMerging {
  import opened PyStr
  import opened Templates
  import opened EventModels
  import opened Wrappers
  import opened JsonValue

  /** A group is keyed by (user name, gift name). */
  type Key = (string, string)

  /** `UserGiftGroup`. */
  datatype Group = Group(
    userName: string,
    giftName: string,
    totalNum: int,
    firstTime: int,
    lastUpdateTime: int,
    currentWindow: int)

  /** The configuration read at each call: the merge switch, the window settings and the announcement template. */
  datatype MergeConfig = MergeConfig(
    mergeOn: bool,
    initialWindow: int,
    increment: int,
    maxWindow: int,
    giftOnText: string)

  /** What one announcement emits: the gift and its rendered display text. */
  datatype Announcement = Announcement(gift: GiftMessage, text: Text)

  function KeyOf(g: GiftMessage): Key {
    (g.userName, g.giftName)
  }

  function Min(a: int, b: int): int {
    if a <= b then a else b
  }

  /** `giftOnText.format(user_name=..., gift_name=..., gift_num=...)`. */
  function Announce(template: string, g: GiftMessage): Announcement {
    Announcement(g, Format(template, [("user_name", g.userName), ("gift_name", g.giftName), ("gift_num", IntToString(g.giftNum))]))
  }

  /** The gift a flushed group is announced as: its names and its running total, every other field default. */
  function MergedGift(grp: Group): GiftMessage {
    NewGift(grp.userName, grp.giftName, grp.totalNum)
  }

  /** `_add_to_user_gift_group` on the table. */
  function AddToGroups(groups: map<Key, Group>, cfg: MergeConfig, g: GiftMessage, now: int): (r: map<Key, Group>)
    ensures r.Keys == groups.Keys + {KeyOf(g)}
    ensures forall k :: k in groups && k != KeyOf(g) ==> r[k] == groups[k]
  {
    var key := KeyOf(g);
    if key !in groups then
      groups[key := Group(g.userName, g.giftName, g.giftNum, now, now, cfg.initialWindow)]
    else
      groups[key := Grown(groups[key], cfg, g, now)]
  }

  /** A repeat gift merged into its group: the count added, the time moved to `now`, the window grown up to the maximum. */
  function Grown(grp: Group, cfg: MergeConfig, g: GiftMessage, now: int): Group {
    grp.(totalNum := grp.totalNum + g.giftNum,
         lastUpdateTime := now,
         currentWindow := Min(grp.currentWindow + cfg.increment, cfg.maxWindow))
  }

  /** A group is due when its quiet time has reached its window. */
  predicate Due(grp: Group, now: int) {
    now - grp.lastUpdateTime >= grp.currentWindow
  }

  /** The keys a tick at `now` flushes. */
  function Expired(groups: map<Key, Group>, now: int): set<Key> {
    set k | k in groups && Due(groups[k], now)
  }

  function Sum(s: seq<int>): int {
    if s == [] then 0 else Sum(s[..|s| - 1]) + s[|s| - 1]
  }

  /** `order` lists the keys `ks`, each once. */
  predicate Listed(order: seq<Key>, ks: set<Key>) {
    Distinct(order) && KeySet(order) == ks
  }

  /** Each group is keyed by its own names and holds the sum of the counts merged into it. */
  ghost predicate Tallied(groups: map<Key, Group>, merged: map<Key, seq<int>>) {
    groups.Keys == merged.Keys &&
    forall k :: k in groups ==>
      groups[k].userName == k.0 && groups[k].giftName == k.1 &&
      groups[k].totalNum == Sum(merged[k]) && merged[k] != []
  }

  lemma TalliedUpdate(groups: map<Key, Group>, merged: map<Key, seq<int>>, key: Key, grp: Group, counts: seq<int>)
    requires Tallied(groups, merged)
    requires grp.userName == key.0 && grp.giftName == key.1 && grp.totalNum == Sum(counts) && counts != []
    ensures Tallied(groups[key := grp], merged[key := counts])
  {
    var g2, m2 := groups[key := grp], merged[key := counts];
    forall k | k in g2
      ensures g2[k].userName == k.0 && g2[k].giftName == k.1 && g2[k].totalNum == Sum(m2[k]) && m2[k] != []
    {
      if k != key {
        assert g2[k] == groups[k] && m2[k] == merged[k];
      }
    }
  }

  lemma TalliedRemove(groups: map<Key, Group>, merged: map<Key, seq<int>>, key: Key)
    requires Tallied(groups, merged)
    ensures Tallied(groups - {key}, merged - {key})
  {
  }

  /** A new key at the end of the key order. */
  lemma ListedAppend(order: seq<Key>, ks: set<Key>, key: Key)
    requires Listed(order, ks) && key !in ks
    ensures Listed(order + [key], ks + {key})
  {
    var o := order + [key];
    assert forall k :: k in o <==> k in order || k == key;
    assert KeySet(o) == ks + {key};
  }

  /** Popping a key from the key order. */
  lemma ListedWithout(order: seq<Key>, ks: set<Key>, key: Key)
    requires Listed(order, ks)
    ensures Listed(Without(order, {key}), ks - {key})
  {
    WithoutSpec(order, {key});
    assert KeySet(Without(order, {key})) == ks - {key};
  }

  /** The announcements for flushing `keys` in order out of `groups`; a key without a group announces nothing. */
  function Flushes(template: string, groups: map<Key, Group>, keys: seq<Key>): (r: seq<Announcement>)
    ensures |r| <= |keys|
  {
    if keys == [] then []
    else
      var last := keys[|keys| - 1];
      Flushes(template, groups, keys[..|keys| - 1]) + (if last in groups then [Announce(template, MergedGift(groups[last]))] else [])
  }

  predicate Distinct<T(==)>(s: seq<T>) {
    forall i, j :: 0 <= i < j < |s| ==> s[i] != s[j]
  }

  /** The keys listed in `s`. */
  function KeySet(s: seq<Key>): set<Key> {
    set k | k in s
  }

  /**
   * Removing the keys of a prefix one longer removes one more key, which was
   * still present with its original group when the keys are distinct.
   */
  lemma RemoveNext(groups: map<Key, Group>, keys: seq<Key>, i: nat)
    requires i < |keys| && Distinct(keys) && keys[i] in groups
    ensures keys[i] in groups - KeySet(keys[..i])
    ensures (groups - KeySet(keys[..i]))[keys[i]] == groups[keys[i]]
    ensures KeySet(keys[..i + 1]) == KeySet(keys[..i]) + {keys[i]}
    ensures groups - KeySet(keys[..i + 1]) == (groups - KeySet(keys[..i])) - {keys[i]}
  {
    assert keys[..i + 1] == keys[..i] + [keys[i]];
    assert KeySet(keys[..i + 1]) == KeySet(keys[..i]) + {keys[i]};
    assert keys[i] !in keys[..i];
  }

  /** Flushing one more key appends that key's announcement, when it has a group. */
  lemma FlushesStep(template: string, groups: map<Key, Group>, keys: seq<Key>, i: nat)
    requires i < |keys|
    ensures Flushes(template, groups, keys[..i + 1]) ==
      Flushes(template, groups, keys[..i]) + (if keys[i] in groups then [Announce(template, MergedGift(groups[keys[i]]))] else [])
  {
    assert keys[..i + 1][..i] == keys[..i];
  }

  /** The first `n` speech calls of a tick all succeed. */
  predicate Spoken(speech: nat -> Res<()>, n: nat) {
    forall j :: 0 <= j < n ==> speech(j).Ok?
  }

  lemma SpokenStep(speech: nat -> Res<()>, n: nat)
    ensures Spoken(speech, n + 1) <==> Spoken(speech, n) && speech(n).Ok?
  {
    if Spoken(speech, n) && speech(n).Ok? {
      forall j | 0 <= j < n + 1
        ensures speech(j).Ok?
      {
        if j < n {
          assert speech(j).Ok?;
        }
      }
    }
  }

  lemma AppendAssoc<T>(a: seq<T>, b: seq<T>, c: seq<T>)
    ensures (a + b) + c == a + (b + c)
  {
  }

  /** The keys of `order` that are not in `ks`, in their order: what a dict's key order becomes when `ks` are popped. */
  function Without(order: seq<Key>, ks: set<Key>): seq<Key> {
    if order == [] then []
    else
      var last := order[|order| - 1];
      Without(order[..|order| - 1], ks) + (if last in ks then [] else [last])
  }

  /** The keys of `order` whose groups are due at `now`, in their order. */
  function DueIn(order: seq<Key>, groups: map<Key, Group>, now: int): seq<Key> {
    if order == [] then []
    else
      var last := order[|order| - 1];
      DueIn(order[..|order| - 1], groups, now) + (if last in groups && Due(groups[last], now) then [last] else [])
  }

  /** Popping keys keeps exactly the other keys, each once when they were listed once. */
  lemma {:induction false} WithoutSpec(order: seq<Key>, ks: set<Key>)
    requires Distinct(order)
    ensures Distinct(Without(order, ks))
    ensures forall k :: k in Without(order, ks) <==> k in order && k !in ks
  {
    if order != [] {
      var init := order[..|order| - 1];
      assert Distinct(init);
      WithoutSpec(init, ks);
      assert order[|order| - 1] !in init;
      assert forall k :: k in order <==> k in init || k == order[|order| - 1];
    }
  }

  lemma {:induction false} WithoutNothing(order: seq<Key>)
    ensures Without(order, {}) == order
  {
    if order != [] {
      WithoutNothing(order[..|order| - 1]);
    }
  }

  /** Popping one more key from the key order is popping the larger set. */
  lemma {:induction false} WithoutMore(order: seq<Key>, ks: set<Key>, k: Key)
    ensures Without(Without(order, ks), {k}) == Without(order, ks + {k})
  {
    if order != [] {
      var init, last := order[..|order| - 1], order[|order| - 1];
      WithoutMore(init, ks, k);
      var w := Without(init, ks);
      assert Without(order, ks + {k}) == Without(init, ks + {k}) + (if last in ks + {k} then [] else [last]);
      if last in ks {
        assert Without(order, ks) == w + [];
        assert w + [] == w;
      } else {
        assert Without(order, ks) == w + [last];
        var wl := w + [last];
        assert wl[..|wl| - 1] == w && wl[|wl| - 1] == last;
        assert Without(wl, {k}) == Without(w, {k}) + (if last in {k} then [] else [last]);
      }
    }
  }

  /**
   * The first loop of `_check_gift_groups` lists every due group once, in
   * table order: when `order` lists the table's keys, each once, the keys
   * collected are distinct and exactly the due ones.
   */
  lemma {:induction false} DueInSpec(order: seq<Key>, groups: map<Key, Group>, now: int)
    requires Listed(order, groups.Keys)
    ensures Distinct(DueIn(order, groups, now))
    ensures forall k :: k in DueIn(order, groups, now) <==> k in Expired(groups, now)
  {
    DueInMembers(order, groups, now);
    assert forall k :: k in order <==> k in KeySet(order);
  }

  /** Every key collected is distinct and has a group. */
  lemma DueInPresent(order: seq<Key>, groups: map<Key, Group>, now: int)
    requires Distinct(order)
    ensures Distinct(DueIn(order, groups, now))
    ensures forall j :: 0 <= j < |DueIn(order, groups, now)| ==> DueIn(order, groups, now)[j] in groups
  {
    DueInMembers(order, groups, now);
    var d := DueIn(order, groups, now);
    forall j | 0 <= j < |d|
      ensures d[j] in groups
    {
      assert d[j] in d;
    }
  }

  /** The keys collected are the listed keys whose groups are due, each once when listed once. */
  lemma {:induction false} DueInMembers(order: seq<Key>, groups: map<Key, Group>, now: int)
    requires Distinct(order)
    ensures Distinct(DueIn(order, groups, now))
    ensures forall k :: k in DueIn(order, groups, now) <==> k in order && k in groups && Due(groups[k], now)
  {
    if order != [] {
      var init := order[..|order| - 1];
      assert Distinct(init);
      DueInMembers(init, groups, now);
      assert order[|order| - 1] !in init;
      assert forall k :: k in order <==> k in init || k == order[|order| - 1];
    }
  }

  class GiftMerger {
    /** `user_gift_groups`. */
    var groups: map<Key, Group>
    /** The keys of `user_gift_groups` in the dict's insertion order. */
    var order: seq<Key>
    /** Whether the one-second check timer is running. */
    var timerActive: bool
    /** Every announcement so far, in order. */
    var announcements: seq<Announcement>
    /** The counts merged into each live group since it was created. */
    ghost var merged: map<Key, seq<int>>

    ghost predicate Valid()
      reads this
    {
      Listed(order, groups.Keys) && Tallied(groups, merged)
    }

    constructor()
      ensures Valid()
      ensures groups == map[] && order == [] && !timerActive && announcements == []
    {
      groups := map[];
      order := [];
      timerActive := false;
      announcements := [];
      merged := map[];
    }

    /** `start`: starts the timer only when it is not running. */
    method Start()
      modifies this
      ensures timerActive
      ensures groups == old(groups) && order == old(order) && announcements == old(announcements) && merged == old(merged)
    {
      if !timerActive {
        timerActive := true;
      }
    }

    /** `stop`: stops the timer only when it is running. */
    method Stop()
      modifies this
      ensures !timerActive
      ensures groups == old(groups) && order == old(order) && announcements == old(announcements) && merged == old(merged)
    {
      if timerActive {
        timerActive := false;
      }
    }

    /**
     * `_process_single_gift`: render and display one gift, then speak and
     * queue it.  `speech` is the outcome of `text_to_speech` and
     * `play_bytes_async`; the display signal is emitted before them, so a
     * failing speech call still leaves the announcement, and its error is
     * raised.
     */
    method ProcessSingleGift(template: string, g: GiftMessage, speech: Res<()>) returns (r: Res<()>)
      modifies this
      ensures announcements == old(announcements) + [Announce(template, g)]
      ensures r == speech
      ensures groups == old(groups) && order == old(order) && timerActive == old(timerActive) && merged == old(merged)
    {
      announcements := announcements + [Announce(template, g)];
      r := speech;
    }

    /** `_add_to_user_gift_group`: open a group for a first gift, or merge a repeat into its group. */
    method AddToUserGiftGroup(cfg: MergeConfig, g: GiftMessage, now: int)
      requires Valid()
      modifies this
      ensures Valid()
      ensures groups == AddToGroups(old(groups), cfg, g, now)
      ensures KeyOf(g) !in old(groups) ==> order == old(order) + [KeyOf(g)] && merged == old(merged)[KeyOf(g) := [g.giftNum]]
      ensures KeyOf(g) in old(groups) ==> order == old(order) && merged == old(merged)[KeyOf(g) := old(merged)[KeyOf(g)] + [g.giftNum]]
      ensures announcements == old(announcements) && timerActive == old(timerActive)
    {
      if KeyOf(g) !in groups {
        OpenGroup(cfg, g, now);
      } else {
        MergeRepeat(cfg, g, now);
      }
    }

    /** The first branch of `_add_to_user_gift_group`: a new group, added last to the table. */
    method OpenGroup(cfg: MergeConfig, g: GiftMessage, now: int)
      requires Valid() && KeyOf(g) !in groups
      modifies this
      ensures Valid()
      ensures groups == old(groups)[KeyOf(g) := Group(g.userName, g.giftName, g.giftNum, now, now, cfg.initialWindow)]
      ensures order == old(order) + [KeyOf(g)] && merged == old(merged)[KeyOf(g) := [g.giftNum]]
      ensures announcements == old(announcements) && timerActive == old(timerActive)
    {
      var key := KeyOf(g);
      var grp := Group(g.userName, g.giftName, g.giftNum, now, now, cfg.initialWindow);
      assert Sum([g.giftNum]) == Sum([]) + g.giftNum;
      TalliedUpdate(groups, merged, key, grp, [g.giftNum]);
      ListedAppend(order, groups.Keys, key);
      groups := groups[key := grp];
      order := order + [key];
      merged := merged[key := [g.giftNum]];
    }

    /** The second branch of `_add_to_user_gift_group`: the count is added and the window grown, in place. */
    method MergeRepeat(cfg: MergeConfig, g: GiftMessage, now: int)
      requires Valid() && KeyOf(g) in groups
      modifies this
      ensures Valid()
      ensures groups == AddToGroups(old(groups), cfg, g, now)
      ensures order == old(order) && merged == old(merged)[KeyOf(g) := old(merged)[KeyOf(g)] + [g.giftNum]]
      ensures announcements == old(announcements) && timerActive == old(timerActive)
    {
      var key := KeyOf(g);
      var grp := groups[key];
      var merge := Grown(grp, cfg, g, now);
      var counts := merged[key] + [g.giftNum];
      assert counts[..|counts| - 1] == merged[key];
      TalliedUpdate(groups, merged, key, merge, counts);
      assert groups[key := merge].Keys == groups.Keys;
      assert groups[key := merge] == AddToGroups(groups, cfg, g, now);
      groups := groups[key := merge];
      merged := merged[key := counts];
    }

    /**
     * `add_gift`: merge when merging is on, otherwise announce the gift at
     * once, raising what its speech call raises.
     */
    method AddGift(cfg: MergeConfig, g: GiftMessage, now: int, speech: Res<()>) returns (r: Res<()>)
      requires Valid()
      modifies this
      ensures Valid()
      ensures cfg.mergeOn ==> r == Ok(()) && groups == AddToGroups(old(groups), cfg, g, now) &&
                              announcements == old(announcements)
      ensures cfg.mergeOn && KeyOf(g) !in old(groups) ==>
                order == old(order) + [KeyOf(g)] && merged == old(merged)[KeyOf(g) := [g.giftNum]]
      ensures cfg.mergeOn && KeyOf(g) in old(groups) ==>
                order == old(order) && merged == old(merged)[KeyOf(g) := old(merged)[KeyOf(g)] + [g.giftNum]]
      ensures !cfg.mergeOn ==> r == speech && groups == old(groups) && order == old(order) && merged == old(merged) &&
                               announcements == old(announcements) + [Announce(cfg.giftOnText, g)]
      ensures timerActive == old(timerActive)
    {
      if cfg.mergeOn {
        AddToUserGiftGroup(cfg, g, now);
        r := Ok(());
      } else {
        r := ProcessSingleGift(cfg.giftOnText, g, speech);
      }
    }

    /**
     * `_process_user_gift_group`: an absent key is ignored; a present group
     * is popped from the table and announced with the total of every count
     * merged into it, raising what its speech call raises.
     */
    method ProcessUserGiftGroup(template: string, key: Key, speech: Res<()>) returns (r: Res<()>)
      requires Valid()
      modifies this
      ensures Valid()
      ensures key !in old(groups) ==>
        r == Ok(()) && groups == old(groups) && order == old(order) && announcements == old(announcements) && merged == old(merged)
      ensures key in old(groups) ==>
        r == speech &&
        groups == old(groups) - {key} && order == Without(old(order), {key}) &&
        announcements == old(announcements) + [Announce(template, MergedGift(old(groups)[key]))] &&
        announcements[|announcements| - 1].gift.giftNum == Sum(old(merged)[key]) &&
        announcements[|announcements| - 1].gift.userName == key.0 &&
        announcements[|announcements| - 1].gift.giftName == key.1
      ensures key in old(groups) ==> merged == old(merged) - {key}
      ensures timerActive == old(timerActive)
    {
      if key !in groups {
        return Ok(());
      }
      var grp := groups[key];
      TalliedRemove(groups, merged, key);
      ListedWithout(order, groups.Keys, key);
      assert (groups - {key}).Keys == groups.Keys - {key};
      groups := groups - {key};
      order := Without(order, {key});
      merged := merged - {key};
      r := ProcessSingleGift(template, MergedGift(grp), speech);
    }

    /** The first loop of `_check_gift_groups`: the keys of the due groups, in table order. */
    method DueKeys(now: int) returns (keys: seq<Key>)
      requires Valid()
      ensures keys == DueIn(order, groups, now)
    {
      keys := [];
      for i := 0 to |order|
        invariant keys == DueIn(order[..i], groups, now)
      {
        assert order[..i + 1][..i] == order[..i];
        if Due(groups[order[i]], now) {
          keys := keys + [order[i]];
        }
      }
      assert order[..|order|] == order;
    }

    /**
     * `_check_gift_groups`: with merging on, collect the keys of the groups
     * that are due at `now` in table order, then flush them one by one.
     * `speech(i)` is the outcome of the speech call of the `i`-th flush of
     * this tick; the first one that raises ends the tick, and the due
     * groups after it stay in the table.  `flushed` lists the keys flushed,
     * in order.
     */
    method CheckGiftGroups(cfg: MergeConfig, now: int, speech: nat -> Res<()>) returns (flushed: seq<Key>, r: Res<()>)
      requires Valid()
      modifies this
      ensures Valid()
      ensures !cfg.mergeOn ==> flushed == [] && r == Ok(()) && groups == old(groups) && order == old(order) &&
                               announcements == old(announcements)
      ensures cfg.mergeOn ==> |flushed| <= |DueIn(old(order), old(groups), now)| &&
                              flushed == DueIn(old(order), old(groups), now)[..|flushed|]
      ensures cfg.mergeOn ==> (r.Ok? <==> flushed == DueIn(old(order), old(groups), now) && Spoken(speech, |flushed|))
      ensures r.Err? ==> |flushed| > 0 && Spoken(speech, |flushed| - 1) && r == speech(|flushed| - 1)
      ensures cfg.mergeOn && r.Ok? ==> forall k :: k in flushed <==> k in Expired(old(groups), now)
      ensures groups == old(groups) - KeySet(flushed) && order == Without(old(order), KeySet(flushed))
      ensures announcements == old(announcements) + Flushes(cfg.giftOnText, old(groups), flushed)
      ensures timerActive == old(timerActive)
    {
      if !cfg.mergeOn {
        WithoutNothing(order);
        assert KeySet([]) == {};
        assert groups - {} == groups;
        return [], Ok(());
      }
      DueInSpec(order, groups, now);
      flushed, r := FlushDue(cfg.giftOnText, now, speech);
    }

    /** `_check_gift_groups` with merging on: both loops. */
    method FlushDue(template: string, now: int, speech: nat -> Res<()>) returns (flushed: seq<Key>, r: Res<()>)
      requires Valid()
      modifies this
      ensures Valid()
      ensures |flushed| <= |DueIn(old(order), old(groups), now)| && flushed == DueIn(old(order), old(groups), now)[..|flushed|]
      ensures r.Ok? <==> flushed == DueIn(old(order), old(groups), now) && Spoken(speech, |flushed|)
      ensures r.Err? ==> |flushed| > 0 && Spoken(speech, |flushed| - 1) && r == speech(|flushed| - 1)
      ensures groups == old(groups) - KeySet(flushed) && order == Without(old(order), KeySet(flushed))
      ensures announcements == old(announcements) + Flushes(template, old(groups), flushed)
      ensures timerActive == old(timerActive)
    {
      var toProcess := DueKeys(now);
      DueInPresent(order, groups, now);
      var n;
      n, r := FlushKeys(template, toProcess, speech);
      flushed := toProcess[..n];
      assert |flushed| == n;
      assert r.Ok? ==> flushed == toProcess;
    }

    /**
     * The second loop of `_check_gift_groups`: flush the given keys one by
     * one, in order, until a speech call raises.  The first `n` keys are
     * flushed.
     */
    method FlushKeys(template: string, keys: seq<Key>, speech: nat -> Res<()>) returns (n: nat, r: Res<()>)
      requires Valid()
      requires Distinct(keys)
      requires forall j :: 0 <= j < |keys| ==> keys[j] in groups
      modifies this
      ensures Valid()
      ensures n <= |keys|
      ensures r.Ok? <==> n == |keys| && Spoken(speech, n)
      ensures r.Err? ==> n > 0 && Spoken(speech, n - 1) && r == speech(n - 1)
      ensures groups == old(groups) - KeySet(keys[..n]) && order == Without(old(order), KeySet(keys[..n]))
      ensures announcements == old(announcements) + Flushes(template, old(groups), keys[..n])
      ensures timerActive == old(timerActive)
    {
      n, r := 0, Ok(());
      assert KeySet(keys[..0]) == {};
      WithoutNothing(order);
      while n < |keys| && r.Ok?
        invariant 0 <= n <= |keys|
        invariant Valid()
        invariant groups == old(groups) - KeySet(keys[..n])
        invariant order == Without(old(order), KeySet(keys[..n]))
        invariant announcements == old(announcements) + Flushes(template, old(groups), keys[..n])
        invariant timerActive == old(timerActive)
        invariant r.Ok? ==> Spoken(speech, n)
        invariant r.Err? ==> n > 0 && Spoken(speech, n - 1) && r == speech(n - 1)
      {
        SpokenStep(speech, n);
        r := FlushNext(template, keys, n, speech(n), old(groups), old(order), old(announcements));
        n := n + 1;
      }
    }

    /** One pass of the flush loop: the group of `keys[i]` is popped and announced. */
    method FlushNext(template: string, keys: seq<Key>, i: nat, speech: Res<()>,
                     ghost start: map<Key, Group>, ghost startOrder: seq<Key>, ghost before: seq<Announcement>)
      returns (r: Res<()>)
      requires Valid()
      requires i < |keys| && Distinct(keys) && keys[i] in start
      requires groups == start - KeySet(keys[..i]) && order == Without(startOrder, KeySet(keys[..i]))
      requires announcements == before + Flushes(template, start, keys[..i])
      modifies this
      ensures Valid()
      ensures r == speech
      ensures groups == start - KeySet(keys[..i + 1]) && order == Without(startOrder, KeySet(keys[..i + 1]))
      ensures announcements == before + Flushes(template, start, keys[..i + 1])
      ensures timerActive == old(timerActive)
    {
      var key := keys[i];
      RemoveNext(start, keys, i);
      FlushesStep(template, start, keys, i);
      WithoutMore(startOrder, KeySet(keys[..i]), key);
      ghost var flushed := Flushes(template, start, keys[..i]);
      ghost var next := Announce(template, MergedGift(start[key]));
      assert Flushes(template, start, keys[..i + 1]) == flushed + [next];
      r := ProcessUserGiftGroup(template, key, speech);
      assert announcements == (before + flushed) + [next];
      AppendAssoc(before, flushed, [next]);
    }

    /** `clear_all`: drop every group without announcing anything. */
    method ClearAll()
      modifies this
      ensures Valid()
      ensures groups == map[] && order == [] && announcements == old(announcements) && timerActive == old(timerActive)
    {
      groups := map[];
      order := [];
      merged := map[];
    }
  }

  // ------------------------------------------------------------ properties

  /** Different users or different gift names never land in the same group. */
  lemma SeparateKeys(groups: map<Key, Group>, cfg: MergeConfig, g: GiftMessage, now: int, other: Key)
    requires other != KeyOf(g) && other in groups
    ensures AddToGroups(groups, cfg, g, now)[other] == groups[other]
  {
  }

  /** A first gift opens a group holding its count, the initial window, and `now` as both times. */
  lemma FirstGiftOpensGroup(groups: map<Key, Group>, cfg: MergeConfig, g: GiftMessage, now: int)
    requires KeyOf(g) !in groups
    ensures AddToGroups(groups, cfg, g, now)[KeyOf(g)] == Group(g.userName, g.giftName, g.giftNum, now, now, cfg.initialWindow)
  {
  }

  /**
   * A repeat gift adds its count, moves the last-update time to `now`, and
   * grows the window by the increment without passing the maximum; with a
   * non-negative increment a window at most the maximum never shrinks.
   */
  lemma RepeatGiftGrowsWindow(groups: map<Key, Group>, cfg: MergeConfig, g: GiftMessage, now: int)
    requires KeyOf(g) in groups
    ensures var r := AddToGroups(groups, cfg, g, now)[KeyOf(g)];
      r.totalNum == groups[KeyOf(g)].totalNum + g.giftNum &&
      r.lastUpdateTime == now &&
      r.firstTime == groups[KeyOf(g)].firstTime &&
      r.currentWindow <= cfg.maxWindow &&
      (cfg.increment >= 0 && groups[KeyOf(g)].currentWindow <= cfg.maxWindow ==> r.currentWindow >= groups[KeyOf(g)].currentWindow)
  {
  }

  /** Every window stays within [initial, max] when `initial <= max` and the increment is non-negative. */
  predicate WindowsBounded(groups: map<Key, Group>, cfg: MergeConfig) {
    forall k :: k in groups ==> cfg.initialWindow <= groups[k].currentWindow <= cfg.maxWindow
  }

  lemma AddKeepsWindowsBounded(groups: map<Key, Group>, cfg: MergeConfig, g: GiftMessage, now: int)
    requires cfg.initialWindow <= cfg.maxWindow && cfg.increment >= 0
    requires WindowsBounded(groups, cfg)
    ensures WindowsBounded(AddToGroups(groups, cfg, g, now), cfg)
  {
  }

  // ------------------------------------------------------- worked example

  /** Replaying timed gifts into the table, in order. */
  function Replay(groups: map<Key, Group>, cfg: MergeConfig, gifts: seq<(GiftMessage, int)>): map<Key, Group>
    decreases |gifts|
  {
    if gifts == [] then groups
    else Replay(AddToGroups(groups, cfg, gifts[0].0, gifts[0].1), cfg, gifts[1..])
  }

  const ExampleConfig := MergeConfig(true, 2000, 1000, 5000, "{user_name} 赠送了 {gift_num} 个 {gift_name}")

  /** One user sends 1, 2 and 3 of the same gift at 0 s, 1 s and 2.5 s. */
  function ExampleGifts(): seq<(GiftMessage, int)> {
    [(NewGift("A", "Rocket", 1), 0), (NewGift("A", "Rocket", 2), 1000), (NewGift("A", "Rocket", 3), 2500)]
  }

  /**
   * Windows 2 s, +1 s, at most 5 s: the group's window ends up at 4 s after
   * its last gift at 2.5 s, so no tick before 6.5 s flushes anything and
   * every tick from 6.5 s on flushes exactly that group, with a total of 6.
   */
  lemma WorkedExample(now: int)
    ensures var groups := Replay(map[], ExampleConfig, ExampleGifts());
      groups.Keys == {("A", "Rocket")} &&
      groups[("A", "Rocket")].totalNum == 6 &&
      groups[("A", "Rocket")].currentWindow == 4000 &&
      (now < 6500 ==> Expired(groups, now) == {}) &&
      (now >= 6500 ==> Expired(groups, now) == {("A", "Rocket")})
  {
    var g0 := AddToGroups(map[], ExampleConfig, NewGift("A", "Rocket", 1), 0);
    var g1 := AddToGroups(g0, ExampleConfig, NewGift("A", "Rocket", 2), 1000);
    var g2 := AddToGroups(g1, ExampleConfig, NewGift("A", "Rocket", 3), 2500);
    assert ExampleGifts()[1..][1..][1..] == [];
    assert Replay(map[], ExampleConfig, ExampleGifts()) == g2;
    assert g2[("A", "Rocket")] == Group("A", "Rocket", 6, 0, 2500, 4000);
  }

  /** In the example the single flush announces the total 6 under the user's and the gift's names. */
  lemma WorkedExampleAnnouncement(now: int)
    requires now >= 6500
    ensures var groups := Replay(map[], ExampleConfig, ExampleGifts());
      ("A", "Rocket") in groups &&
      Flushes(ExampleConfig.giftOnText, groups, [("A", "Rocket")]) ==
        [Announce(ExampleConfig.giftOnText, NewGift("A", "Rocket", 6))]
  {
    WorkedExample(now);
  }
}
