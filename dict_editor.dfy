/**
 * The key/value row editors behind the dictionary settings cards: the
 * generic dictionary card and the alias card, which differ only in their
 * labels and in the configuration item they are bound to.
 *
 * Each row is a widget with a key text box, a value text box and
 * add/delete buttons.  The card keeps at least one row, shows "add" on the
 * last row only and "delete" on every row when there is more than one,
 * and writes the dictionary of non-empty stripped rows to its
 * configuration item after every change.
 */
module RowEditor {
  import opened Wrappers
  import opened PyStr
  import PyDict

  /**
   * One row widget: the identity that tells it from every other row, its
   * two texts and which of its buttons are visible.
   */
  datatype Row = Row(id: nat, keyText: string, valueText: string, showAdd: bool, showDelete: bool)

  /** A new row: "add" hidden, "delete" visible. */
  function NewRow(id: nat, key: string, value: string): Row {
    Row(id, key, value, false, true)
  }

  /** What the rows read with `get_key` and `get_value`, in order: their stripped key and value. */
  function Pairs(items: seq<Row>): (r: seq<(string, string)>)
    ensures |r| == |items|
    ensures forall i :: 0 <= i < |items| ==> r[i] == (Strip(items[i].keyText), Strip(items[i].valueText))
  {
    if items == [] then [] else [(Strip(items[0].keyText), Strip(items[0].valueText))] + Pairs(items[1..])
  }

  /** The position of the row with identity `id`, if there is one. */
  function IndexOf(items: seq<Row>, id: nat): (r: Option<nat>)
    ensures r.Some? ==> r.value < |items| && items[r.value].id == id
    ensures r.None? ==> forall i :: 0 <= i < |items| ==> items[i].id != id
  {
    if items == [] then None
    else if items[0].id == id then Some(0)
    else
      var r := IndexOf(items[1..], id);
      if r.Some? then Some(r.value + 1) else None
  }

  /** A row is saved only when its key and its value are both non-empty. */
  predicate Kept(p: (string, string)) {
    p.0 != [] && p.1 != []
  }

  /** `_save_to_config`: the dict built by storing each kept row in turn, from an empty dict. */
  function Saved(ps: seq<(string, string)>): PyDict.Dict<string, string> {
    if ps == [] then []
    else
      var d := Saved(ps[..|ps| - 1]);
      if Kept(ps[|ps| - 1]) then PyDict.Set(d, ps[|ps| - 1].0, ps[|ps| - 1].1) else d
  }

  /** One step of the saving loop: the next row is stored when it is kept. */
  lemma SavedStep(ps: seq<(string, string)>, i: nat)
    requires i < |ps|
    ensures Saved(ps[..i + 1]) == if Kept(ps[i]) then PyDict.Set(Saved(ps[..i]), ps[i].0, ps[i].1) else Saved(ps[..i])
  {
    assert ps[..i + 1][..i] == ps[..i];
  }

  /** The value of the last kept row with key `k`, if any. */
  function LastKept(ps: seq<(string, string)>, k: string): Option<string> {
    if ps == [] then None
    else if ps[|ps| - 1].0 == k && Kept(ps[|ps| - 1]) then Some(ps[|ps| - 1].1)
    else LastKept(ps[..|ps| - 1], k)
  }

  /** Looking a key up in the saved dict gives the value of its last kept row. */
  lemma {:induction false} SavedLookup(ps: seq<(string, string)>, k: string)
    ensures PyDict.Lookup(Saved(ps), k) == LastKept(ps, k)
  {
    if ps != [] {
      var init, p := ps[..|ps| - 1], ps[|ps| - 1];
      SavedLookup(init, k);
      if Kept(p) {
        PyDict.SetLookup(Saved(init), p.0, p.1, k);
      }
    }
  }

  /** A key is saved with the value of the last row that has it and is kept. */
  lemma {:induction false} LastKeptAt(ps: seq<(string, string)>, k: string, i: nat)
    requires i < |ps| && ps[i].0 == k && Kept(ps[i])
    requires forall j :: i < j < |ps| && ps[j].0 == k ==> !Kept(ps[j])
    ensures LastKept(ps, k) == Some(ps[i].1)
  {
    if i < |ps| - 1 {
      LastKeptAt(ps[..|ps| - 1], k, i);
    }
  }

  /** A key none of whose rows is kept is not saved. */
  lemma {:induction false} LastKeptNone(ps: seq<(string, string)>, k: string)
    requires forall j :: 0 <= j < |ps| && ps[j].0 == k ==> !Kept(ps[j])
    ensures LastKept(ps, k).None?
  {
    if ps != [] {
      LastKeptNone(ps[..|ps| - 1], k);
    }
  }

  /**
   * The saved dict holds exactly the keys of kept rows, each with the value
   * of its last kept row.
   */
  lemma SavedSpec(ps: seq<(string, string)>, k: string, i: nat)
    requires i < |ps| && ps[i].0 == k && Kept(ps[i])
    requires forall j :: i < j < |ps| && ps[j].0 == k ==> !Kept(ps[j])
    ensures PyDict.Lookup(Saved(ps), k) == Some(ps[i].1)
  {
    SavedLookup(ps, k);
    LastKeptAt(ps, k, i);
  }

  /** A key with no kept row is absent from the saved dict. */
  lemma SavedSpecAbsent(ps: seq<(string, string)>, k: string)
    requires forall j :: 0 <= j < |ps| && ps[j].0 == k ==> !Kept(ps[j])
    ensures k !in PyDict.Keys(Saved(ps))
  {
    SavedLookup(ps, k);
    LastKeptNone(ps, k);
  }

  /** The rows `_load_dict` makes: one per entry, or a single blank row for an empty dict. */
  function Loaded(d: PyDict.Dict<string, string>): (r: seq<(string, string)>)
    ensures r != []
  {
    if d == [] then [("", "")] else d
  }

  function StripAll(ps: seq<(string, string)>): (r: seq<(string, string)>)
    ensures |r| == |ps| && forall i :: 0 <= i < |ps| ==> r[i] == (Strip(ps[i].0), Strip(ps[i].1))
  {
    if ps == [] then [] else [(Strip(ps[0].0), Strip(ps[0].1))] + StripAll(ps[1..])
  }

  /** Saving rows that are all kept and have distinct keys stores exactly those rows, in order. */
  lemma {:induction false} SavedAllKept(ps: seq<(string, string)>)
    requires PyDict.DistinctKeys(ps)
    requires forall i :: 0 <= i < |ps| ==> Kept(ps[i])
    ensures Saved(ps) == ps
  {
    if ps != [] {
      var init, p := ps[..|ps| - 1], ps[|ps| - 1];
      SavedAllKept(init);
      assert p.0 !in PyDict.Keys(init);
      PyDict.SetAppend(init, p.0, p.1);
      assert init + [p] == ps;
    }
  }

  /**
   * Loading a dict whose keys and values are non-empty and already stripped
   * and then saving it gives the same dict back.
   */
  lemma LoadSaveIdentity(d: PyDict.Dict<string, string>)
    requires PyDict.DistinctKeys(d)
    requires forall i :: 0 <= i < |d| ==> Kept(d[i]) && Strip(d[i].0) == d[i].0 && Strip(d[i].1) == d[i].1
    ensures Saved(StripAll(Loaded(d))) == d
  {
    if d == [] {
    } else {
      assert StripAll(d) == d;
      SavedAllKept(d);
    }
  }

  /** Only the last row shows "add"; every row shows "delete" exactly when there is more than one. */
  predicate ButtonsShown(items: seq<Row>) {
    forall i :: 0 <= i < |items| ==> items[i].showAdd == (i == |items| - 1) && items[i].showDelete == (|items| > 1)
  }

  /** No two rows share an identity, and every identity is below `next`. */
  predicate UniqueIds(items: seq<Row>, next: nat) {
    (forall i, j :: 0 <= i < j < |items| ==> items[i].id != items[j].id) &&
    (forall i :: 0 <= i < |items| ==> items[i].id < next)
  }

  /** Removing a row keeps the identities unique, and drops the removed one. */
  lemma RemoveKeepsUnique(items: seq<Row>, next: nat, k: nat)
    requires UniqueIds(items, next) && k < |items|
    ensures UniqueIds(items[..k] + items[k + 1..], next)
    ensures var r := items[..k] + items[k + 1..]; forall i :: 0 <= i < |r| ==> r[i].id != items[k].id
  {
    var r := items[..k] + items[k + 1..];
    assert forall i :: 0 <= i < |r| ==> r[i] == items[if i < k then i else i + 1];
  }

  /**
   * Python `==` on two dicts: every key of either looks up the same value
   * in both, whatever the order of the pairs.
   */
  predicate SameMapping(a: PyDict.Dict<string, string>, b: PyDict.Dict<string, string>) {
    (forall k :: k in PyDict.Keys(a) ==> PyDict.Lookup(a, k) == PyDict.Lookup(b, k)) &&
    (forall k :: k in PyDict.Keys(b) ==> PyDict.Lookup(a, k) == PyDict.Lookup(b, k))
  }

  /**
   * `cfg.set(item, value)`: the configuration returns early when the stored
   * value already equals the new one, so a dict that differs only in its
   * order is not stored.  Either way the stored mapping is the new one.
   */
  function CfgSet(stored: PyDict.Dict<string, string>, value: PyDict.Dict<string, string>): (r: PyDict.Dict<string, string>)
    ensures SameMapping(r, value)
    ensures SameMapping(stored, value) ==> r == stored
    ensures !SameMapping(stored, value) ==> r == value
  {
    if SameMapping(stored, value) then stored else value
  }

  /** A dict with a key differs from the empty dict, so only `{}` equals `{}`. */
  lemma NonEmptyDiffers(a: PyDict.Dict<string, string>)
    ensures a != [] ==> !SameMapping(a, [])
  {
    if a != [] {
      var empty: PyDict.Dict<string, string> := [];
      assert PyDict.Keys(a)[0] == a[0].0;
      assert PyDict.Lookup(a, a[0].0).Some?;
      assert PyDict.Lookup(empty, a[0].0).None?;
    }
  }

  /**
   * Re-saving rows that hold the same pairs in another order keeps the
   * stored order: rows `b:2, a:1` saved over the stored `{a: 1, b: 2}`
   * leave it as it was.
   */
  lemma ReorderedSaveKeepsOrder()
    ensures CfgSet([("a", "1"), ("b", "2")], Saved([("b", "2"), ("a", "1")])) == [("a", "1"), ("b", "2")]
  {
    var stored: PyDict.Dict<string, string> := [("a", "1"), ("b", "2")];
    var ps := [("b", "2"), ("a", "1")];
    assert ps[..1] == [("b", "2")] && ps[..1][..0] == [];
    assert Saved(ps[..1]) == [("b", "2")];
    assert Saved(ps) == PyDict.Set([("b", "2")], "a", "1");
    assert Saved(ps) == [("b", "2"), ("a", "1")];
    forall k
      ensures PyDict.Lookup(stored, k) == PyDict.Lookup(Saved(ps), k)
    {
    }
  }

  /** The loop of `_save_to_config`: store every kept row in turn; a later duplicate key wins. */
  method CollectKept(ps: seq<(string, string)>) returns (dictValue: PyDict.Dict<string, string>)
    ensures dictValue == Saved(ps)
  {
    dictValue := [];
    for i := 0 to |ps|
      invariant dictValue == Saved(ps[..i])
    {
      var key, value := ps[i].0, ps[i].1;
      SavedStep(ps, i);
      if key != [] && value != [] {
        dictValue := PyDict.Set(dictValue, key, value);
      }
    }
    assert ps[..|ps|] == ps;
  }

  class DictEditCard {
    var items: seq<Row>
    /** The configuration item's value. */
    var config: PyDict.Dict<string, string>
    /** Identities handed out so far. */
    var nextId: nat

    /** No two rows share an identity, and every identity was handed out. */
    predicate Identified()
      reads this
    {
      UniqueIds(items, nextId)
    }

    /** The card is never without a row, and its buttons follow the row count. */
    predicate Valid()
      reads this
    {
      items != [] && Identified() && ButtonsShown(items)
    }

    /** Making the card loads the configured dict. */
    constructor(value: PyDict.Dict<string, string>)
      ensures Valid() && config == value
      ensures Pairs(items) == StripAll(Loaded(value))
    {
      config := value;
      items := [];
      nextId := 0;
      new;
      LoadDict();
    }

    /** `_add_dict_item`: append a new row with the given texts. */
    method AddRow(key: string, value: string)
      requires Identified()
      modifies this
      ensures Identified()
      ensures items == old(items) + [NewRow(old(nextId), key, value)] && nextId == old(nextId) + 1
      ensures config == old(config)
    {
      items := items + [NewRow(nextId, key, value)];
      nextId := nextId + 1;
    }

    /** `_load_dict`: drop the rows, make one per entry of the configured dict (or one blank row), set the buttons. */
    method LoadDict()
      modifies this
      ensures Valid() && config == old(config)
      ensures Pairs(items) == StripAll(Loaded(config))
    {
      var rows := Loaded(config);
      items := [];
      for i := 0 to |rows|
        invariant Identified() && |items| == i && config == old(config)
        invariant forall j :: 0 <= j < i ==> items[j].keyText == rows[j].0 && items[j].valueText == rows[j].1
      {
        AddRow(rows[i].0, rows[i].1);
      }
      UpdateButtonStates();
    }

    /** `_update_button_states`: set each row's buttons; nothing else about the rows changes. */
    method UpdateButtonStates()
      modifies this
      ensures ButtonsShown(items)
      ensures |items| == |old(items)|
      ensures forall i :: 0 <= i < |items| ==>
        items[i] == old(items[i]).(showAdd := i == |items| - 1, showDelete := |items| > 1)
      ensures Pairs(items) == old(Pairs(items)) && config == old(config) && nextId == old(nextId)
      ensures old(Identified()) ==> Identified()
      ensures forall i :: 0 <= i < |items| ==> items[i].id == old(items[i].id)
    {
      var count := |items|;
      for i := 0 to count
        invariant |items| == count && config == old(config) && nextId == old(nextId)
        invariant forall j :: 0 <= j < i ==> items[j] == old(items[j]).(showAdd := j == count - 1, showDelete := count > 1)
        invariant forall j :: i <= j < count ==> items[j] == old(items[j])
      {
        items := items[i := items[i].(showAdd := i == count - 1, showDelete := count > 1)];
      }
      assert Pairs(items) == old(Pairs(items)) by {
        assert forall j :: 0 <= j < count ==> Pairs(items)[j] == old(Pairs(items))[j];
      }
    }

    /** `_save_to_config`: build the dict of the kept rows and hand it to `cfg.set`. */
    method SaveToConfig()
      modifies this
      ensures SameMapping(old(config), Saved(Pairs(items))) ==> config == old(config)
      ensures !SameMapping(old(config), Saved(Pairs(items))) ==> config == Saved(Pairs(items))
      ensures items == old(items) && nextId == old(nextId)
    {
      var dictValue := CollectKept(Pairs(items));
      config := CfgSet(config, dictValue);
    }
    /** `_on_add_item`: append a blank row, reset the buttons, save. */
    method OnAddItem()
      requires Valid()
      modifies this
      ensures Valid()
      ensures |items| == |old(items)| + 1 && items[|items| - 1].id == old(nextId)
      ensures forall i :: 0 <= i < |old(items)| ==> items[i].id == old(items[i].id)
      ensures Pairs(items) == old(Pairs(items)) + [("", "")]
      ensures config == CfgSet(old(config), Saved(Pairs(items)))
    {
      AddRow("", "");
      UpdateButtonStates();
      SaveToConfig();
    }

    /**
     * `_on_delete_item`: a row of the card is removed, a blank row is added
     * when none is left, the buttons are reset and the dict saved; a row that
     * is not on the card changes nothing.
     */
    method OnDeleteItem(id: nat)
      requires Valid()
      modifies this
      ensures Valid()
      ensures IndexOf(old(items), id).None? ==> items == old(items) && config == old(config)
      ensures IndexOf(old(items), id).Some? && |old(items)| > 1 ==>
        var k := IndexOf(old(items), id).value;
        Pairs(items) == Pairs(old(items)[..k] + old(items)[k + 1..]) && config == CfgSet(old(config), Saved(Pairs(items)))
      ensures IndexOf(old(items), id).Some? && |old(items)| == 1 ==>
        Pairs(items) == [("", "")] && items[0].id == old(nextId) && config == []
      ensures forall i :: 0 <= i < |items| ==> items[i].id != id
    {
      var k := IndexOf(items, id);
      if k.Some? {
        DeleteAt(k.value);
      }
    }

    /** The body of `_on_delete_item` for the row at position `i`. */
    method DeleteAt(i: nat)
      requires Valid() && i < |items|
      modifies this
      ensures Valid() && config == CfgSet(old(config), Saved(Pairs(items)))
      ensures |old(items)| > 1 ==> Pairs(items) == Pairs(old(items)[..i] + old(items)[i + 1..])
      ensures |old(items)| == 1 ==> Pairs(items) == [("", "")] && items[0].id == old(nextId) && config == []
      ensures forall j :: 0 <= j < |items| ==> items[j].id != old(items[i].id)
    {
      RemoveRow(i);
      UpdateButtonStates();
      SaveToConfig();
      if |old(items)| == 1 {
        assert Saved(Pairs(items)) == [] by {
          assert Pairs(items)[..0] == [];
        }
        NonEmptyDiffers(config);
      }
    }

    /** The removal step of `_on_delete_item`: drop row `i`, and add a blank row when none is left. */
    method RemoveRow(i: nat)
      requires Identified() && i < |items|
      modifies this
      ensures Identified() && items != [] && config == old(config)
      ensures |old(items)| > 1 ==> items == old(items[..i] + items[i + 1..]) && nextId == old(nextId)
      ensures |old(items)| == 1 ==> items == [NewRow(old(nextId), "", "")] && Pairs(items) == [("", "")]
      ensures forall j :: 0 <= j < |items| ==> items[j].id != old(items[i].id)
    {
      RemoveKeepsUnique(items, nextId, i);
      items := items[..i] + items[i + 1..];
      if items == [] {
        AddRow("", "");
        assert Pairs(items) == [(Strip(""), Strip(""))];
      }
    }

    /** A text edit in a row of the card (`_on_value_changed`): the row takes the texts and the dict is saved. */
    method OnValueChanged(id: nat, keyText: string, valueText: string)
      requires Valid()
      modifies this
      ensures Valid()
      ensures IndexOf(old(items), id).None? ==> items == old(items)
      ensures IndexOf(old(items), id).Some? ==>
        var k := IndexOf(old(items), id).value;
        items == old(items)[k := old(items)[k].(keyText := keyText, valueText := valueText)]
      ensures config == CfgSet(old(config), Saved(Pairs(items)))
    {
      var k := IndexOf(items, id);
      if k.Some? {
        items := items[k.value := items[k.value].(keyText := keyText, valueText := valueText)];
      }
      SaveToConfig();
    }
  }
}
