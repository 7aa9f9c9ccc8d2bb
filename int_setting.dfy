/**
 * The integer setting card: a text box bound to an integer configuration
 * item.  Digit text is stored as its value and written back in canonical
 * form; any other text is ignored.
 *
 * The card's signal wiring is followed call by call: the box's `setText`
 * runs the text-changed slot before it returns whenever the text actually
 * changes, and storing a new value in the configuration item runs the
 * card's `setValue` again through the item's `valueChanged` signal.  So
 * the slot can run inside `setValue`, and `valueChanged` of the card can be
 * emitted more than once for one edit.
 */
module IntSetting {
  import opened PyStr

  /** The text-changed rule: digit text is taken, and any other text leaves the state as it is. */
  function AfterText(config: int, text: string, t: string): (r: (int, string))
    ensures IsDigits(t) ==> r.0 == DigitsValue(t) && r.0 >= 0 && r.1 == NatToString(r.0)
    ensures !IsDigits(t) ==> r == (config, text)
  {
    if IsDigits(t) then (DigitsValue(t), IntToString(DigitsValue(t))) else (config, text)
  }

  /** Leading zeros are dropped: "007" stores 7 and shows "7". */
  lemma LeadingZerosDropped(config: int, text: string)
    ensures AfterText(config, text, "007") == (7, "7")
  {
    assert DigitsValue("007") == DigitsValue("00") * 10 + 7;
    assert DigitsValue("00") == DigitsValue("0") * 10;
    assert DigitsValue("0") == DigitsValue("") * 10;
  }

  /** After digit text, processing the text the card wrote leaves value and text alone: `int(str(v)) == v`. */
  lemma CanonicalTextFixed(config: int, text: string, t: string)
    requires IsDigits(t)
    ensures var (c, x) := AfterText(config, text, t); AfterText(c, x, x) == (c, x)
  {
    var (c, x) := AfterText(config, text, t);
    NatToStringRoundTrip(c);
  }

  /** Digit text other than the canonical rendering of its own value, such as "007". */
  predicate NonCanonical(t: string) {
    IsDigits(t) && t != IntToString(DigitsValue(t))
  }

  /** The decimal rendering of a number is never non-canonical. */
  lemma RenderingCanonical(v: int)
    ensures !NonCanonical(IntToString(v))
  {
    var r := IntToString(v);
    if v >= 0 {
      NatToStringRoundTrip(v);
      assert r == NatToString(v) && DigitsValue(r) == v;
    } else {
      assert r[0] == '-' && !IsDigit(r[0]);
    }
  }

  /** What `setValue(v)` emits from `valueChanged` while the box shows `shown`: the slot runs once when the box's text changes to digits. */
  function SetValueEmits(shown: string, v: int): (r: seq<int>)
    ensures r == [] || r == [v]
    ensures r != [] <==> shown != IntToString(v) && v >= 0
  {
    if shown != IntToString(v) && v >= 0 then [v] else []
  }

  /** What the text-changed slot emits for `t` while the box shows `shown`: the emissions of its `setValue`, then its own. */
  function SlotEmits(shown: string, t: string): (r: seq<int>)
    ensures !IsDigits(t) ==> r == []
    ensures IsDigits(t) ==> r == SetValueEmits(shown, DigitsValue(t)) + [DigitsValue(t)]
  {
    if IsDigits(t) then SetValueEmits(shown, DigitsValue(t)) + [DigitsValue(t)] else []
  }

  /**
   * Text typed into the box reaches the slot while the box shows it: digit
   * text emits its value twice exactly when it has a leading zero, because
   * the slot's `setText` of the canonical text runs the slot again; any other
   * digit text emits it once.
   */
  lemma TypedTextEmits(t: string)
    requires IsDigits(t)
    ensures |t| > 1 && t[0] == '0' ==> SlotEmits(t, t) == [DigitsValue(t), DigitsValue(t)]
    ensures !(|t| > 1 && t[0] == '0') ==> SlotEmits(t, t) == [DigitsValue(t)]
  {
    NonCanonicalIffLeadingZero(t);
  }

  /** Typing "007" emits 7 twice; typing "7" emits it once. */
  lemma LeadingZerosEmitTwice()
    ensures SlotEmits("007", "007") == [7, 7]
    ensures SlotEmits("7", "7") == [7]
  {
    assert DigitsValue("007") == DigitsValue("00") * 10 + 7;
    assert DigitsValue("00") == DigitsValue("0") * 10;
    assert DigitsValue("0") == DigitsValue("") * 10;
    assert IntToString(7) == "7";
  }

  /** Digit text is non-canonical exactly when it has more than one digit and starts with '0'. */
  lemma {:induction false} NonCanonicalIffLeadingZero(t: string)
    requires IsDigits(t)
    ensures NonCanonical(t) <==> |t| > 1 && t[0] == '0'
  {
    if |t| > 1 && t[0] == '0' {
      RenderingLeadingDigit(DigitsValue(t));
    } else {
      NoLeadingZeroCanonical(t);
    }
  }

  /** A rendering starts with '0' only when it is the rendering of 0. */
  lemma {:induction false} RenderingLeadingDigit(n: nat)
    ensures NatToString(n)[0] == '0' ==> |NatToString(n)| == 1
    ensures n >= 1 ==> NatToString(n)[0] != '0'
    decreases n
  {
    if n >= 10 {
      RenderingLeadingDigit(n / 10);
      assert NatToString(n)[0] == NatToString(n / 10)[0];
    }
  }

  /** Digit text with a non-zero first digit has a value of at least 1. */
  lemma {:induction false} LeadingDigitPositive(s: string)
    requires IsDigits(s) && s[0] != '0'
    ensures DigitsValue(s) >= 1
    decreases |s|
  {
    if |s| > 1 {
      var init := s[..|s| - 1];
      assert init[0] == s[0];
      LeadingDigitPositive(init);
    }
  }

  /** Digit text without a leading zero is the rendering of its value. */
  lemma {:induction false} NoLeadingZeroCanonical(t: string)
    requires IsDigits(t) && (|t| == 1 || t[0] != '0')
    ensures t == NatToString(DigitsValue(t))
    decreases |t|
  {
    var d := t[|t| - 1];
    assert DigitChar(DigitValue(d)) == d;
    if |t| > 1 {
      var init := t[..|t| - 1];
      assert init[0] == t[0];
      LeadingDigitPositive(init);
      NoLeadingZeroCanonical(init);
      RenderingStep(DigitsValue(init), DigitValue(d));
      assert t == init + [d];
    }
  }

  /** Appending a digit to the rendering of a positive number renders ten times it plus that digit. */
  lemma RenderingStep(m: nat, d: nat)
    requires m >= 1 && d < 10
    ensures NatToString(m * 10 + d) == NatToString(m) + [DigitChar(d)]
  {
    var n := m * 10 + d;
    assert n / 10 == m && n % 10 == d;
  }

  class IntSettingCard {
    /** The configuration item's value. */
    var config: int
    /** The text box. */
    var text: string
    /** The values emitted by the card's `valueChanged`. */
    var emitted: seq<int>

    /** The box is filled before the slots are connected, so nothing runs or is emitted. */
    constructor(value: int)
      ensures config == value && text == IntToString(value) && emitted == []
    {
      config, text, emitted := value, IntToString(value), [];
    }

    /**
     * `setValue`: `qconfig.set` stores the value only when it differs, and
     * the item's `valueChanged` then runs `setValue` again; finally the box
     * shows `str(value)`.
     */
    method SetValue(value: int)
      modifies this
      decreases 2 * (if text == IntToString(value) then 1 else 4) + (if config != value then 1 else 0)
      ensures config == value && text == IntToString(value)
      ensures emitted == old(emitted) + SetValueEmits(old(text), value)
    {
      if config != value {
        config := value;
        SetValue(value);
      }
      RenderingCanonical(value);
      if value >= 0 {
        NatToStringRoundTrip(value);
      }
      SetText(IntToString(value));
    }

    /** `lineEdit.setText`: when the text changes, `textChanged` runs the slot with the new text before returning. */
    method SetText(t: string)
      modifies this
      decreases if t == text then 0 else if NonCanonical(t) then 11 else 5
      ensures t == old(text) ==> config == old(config) && text == old(text) && emitted == old(emitted)
      ensures t != old(text) ==> (config, text) == AfterText(old(config), t, t)
      ensures t != old(text) ==> emitted == old(emitted) + SlotEmits(t, t)
    {
      if t != text {
        text := t;
        OnTextChanged(t);
      }
    }

    /** `_on_text_changed`: digit text is stored through `setValue`, shown canonically and then emitted. */
    method OnTextChanged(t: string)
      modifies this
      decreases if IsDigits(t) then
                  2 * (if text == IntToString(DigitsValue(t)) then 1 else 4) + (if config != DigitsValue(t) then 1 else 0) + 1
                else 0
      ensures (config, text) == AfterText(old(config), old(text), t)
      ensures emitted == old(emitted) + SlotEmits(old(text), t)
    {
      if IsDigits(t) {
        var value := DigitsValue(t);
        SetValue(value);
        emitted := emitted + [value];
      }
    }
  }
}
