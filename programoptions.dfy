/**
 * Program options (programoptionstype.h): cells holding a current value and
 * the default they were created with, settable directly or through a
 * QVariant, resettable to the default. Emitted Qt signals are recorded.
 */
module ProgramOptionsType {
  import opened Wrappers
  import opened Decimal

  /** The QVariant kinds these options produce and accept. */
  datatype Variant = VBool(b: bool) | VInt(i: Int32) | VString(s: string) | VInvalid

  /** ASCII lower-casing: upper-case letters move to lower case, nothing else changes. */
  function LowerAscii(s: string): (r: string)
    ensures |r| == |s|
    ensures forall k :: 0 <= k < |s| ==> r[k] == if 'A' <= s[k] <= 'Z' then (s[k] as int + 32) as char else s[k]
  {
    if s == [] then []
    else
      var c := s[0];
      [if 'A' <= c <= 'Z' then (c as int + 32) as char else c] + LowerAscii(s[1..])
  }

  /** QVariant::toBool: numbers are true unless zero; strings are true unless empty, "0" or "false" in any case. */
  function ToBool(v: Variant): (b: bool)
    ensures v.VBool? ==> b == v.b
    ensures v.VInt? ==> (b <==> v.i != 0)
    ensures v.VInvalid? ==> !b
    ensures v.VString? ==> (!b <==> v.s == "" || v.s == "0" || LowerAscii(v.s) == "false")
  {
    match v
    case VBool(b) => b
    case VInt(i) => i != 0
    case VString(s) => !(s == "" || s == "0" || LowerAscii(s) == "false")
    case VInvalid => false
  }

  /** QVariant::toInt: booleans give 0 or 1; a string that is not a number gives 0. */
  function ToInt(v: Variant): (i: Int32)
    ensures v.VInt? ==> i == v.i
    ensures v.VBool? ==> i == (if v.b then 1 else 0)
    ensures v.VString? ==> (ParseInt(v.s).Some? ==> i == ParseInt(v.s).value) && (ParseInt(v.s).None? ==> i == 0)
    ensures v.VInvalid? ==> i == 0
  {
    match v
    case VBool(b) => if b then 1 else 0
    case VInt(i) => i
    case VString(s) => if ParseInt(s).Some? then ParseInt(s).value else 0
    case VInvalid => 0
  }

  /** QVariant::toString: numbers in decimal, booleans as "true" or "false". */
  function ToString(v: Variant): (s: string)
    ensures v.VString? ==> s == v.s
    ensures v.VInt? ==> ParseInt(s) == Some(v.i)
    ensures v.VBool? ==> ToBool(VString(s)) == v.b
  {
    match v
    case VBool(b) => if b then "true" else "false"
    case VInt(i) => ParseIntToString(i); IntToString(i)
    case VString(s) => s
    case VInvalid => ""
  }

  // ---------------------------------------------------------------------------

  datatype BoolSignal = BoolValueChanged(v: bool) | BoolValueChangedInvers(v: bool) | TrueSignal | FalseSignal

  /** The signals setValuePrivat emits when the value changes to `v`. */
  function BoolSignals(v: bool): (r: seq<BoolSignal>)
    ensures |r| == 3 && r[0] == BoolValueChanged(v) && r[1] == BoolValueChangedInvers(!v)
    ensures r[2] == (if v then TrueSignal else FalseSignal)
  {
    [BoolValueChanged(v), BoolValueChangedInvers(!v), if v then TrueSignal else FalseSignal]
  }

  class OptionBool {
    const name: string
    const optClass: string
    var value: bool
    const defaultValue: bool
    /** The checked state of the option's QAction. */
    var actionChecked: bool
    var signals: seq<BoolSignal>

    /** The action always shows the value. */
    predicate Valid()
      reads this
    {
      actionChecked == value
    }

    constructor(v: bool, name: string, optClass: string)
      ensures Valid() && value == v && defaultValue == v && IsDefault()
      ensures this.name == name && this.optClass == optClass && signals == []
    {
      this.name := name;
      this.optClass := optClass;
      value := v;
      defaultValue := v;
      actionChecked := v;
      signals := [];
    }

    function GetValue(): (r: bool)
      reads this
      ensures r == value
    {
      value
    }

    function IsDefault(): (r: bool)
      reads this
      ensures r <==> GetValue() == defaultValue
    {
      value == defaultValue
    }

    function GetVariant(): (r: Variant)
      reads this
      ensures ToBool(r) == GetValue()
    {
      VBool(value)
    }

    /** setValuePrivat: changes and signals only when `v` differs from the value. */
    method SetValue(v: bool)
      requires Valid()
      modifies this
      ensures Valid() && GetValue() == v
      ensures signals == old(signals) + (if v != old(value) then BoolSignals(v) else [])
    {
      if v != value {
        value := v;
        actionChecked := v;
        signals := signals + [BoolValueChanged(v)];
        signals := signals + [BoolValueChangedInvers(!v)];
        if v {
          signals := signals + [TrueSignal];
        } else {
          signals := signals + [FalseSignal];
        }
      }
    }

    method SetValueInvers(v: bool)
      requires Valid()
      modifies this
      ensures Valid() && GetValue() == !v
      ensures signals == old(signals) + (if !v != old(value) then BoolSignals(!v) else [])
    {
      SetValue(!v);
    }

    method ResetValue()
      requires Valid()
      modifies this
      ensures Valid() && IsDefault()
      ensures signals == old(signals) + (if defaultValue != old(value) then BoolSignals(defaultValue) else [])
    {
      SetValue(defaultValue);
    }

    method SetVariant(variant: Variant)
      requires Valid()
      modifies this
      ensures Valid() && GetValue() == ToBool(variant)
      ensures signals == old(signals) + (if ToBool(variant) != old(value) then BoolSignals(ToBool(variant)) else [])
    {
      SetValue(ToBool(variant));
    }
  }

  class OptionInt {
    const name: string
    const optClass: string
    var value: Int32
    const defaultValue: Int32
    /** The range and step offered in the input dialog; the value itself is not clamped to them. */
    const valueMin: Int32
    const valueMax: Int32
    const valueStepSize: Int32
    /** The valueChanged signals emitted. */
    var signals: seq<Int32>

    constructor(v: Int32, name: string, optClass: string, min: Int32 := 0, max: Int32 := 100, stepSize: Int32 := 1)
      ensures value == v && defaultValue == v && IsDefault()
      ensures valueMin == min && valueMax == max && valueStepSize == stepSize
      ensures this.name == name && this.optClass == optClass && signals == []
    {
      this.name := name;
      this.optClass := optClass;
      value := v;
      defaultValue := v;
      valueMin := min;
      valueMax := max;
      valueStepSize := stepSize;
      signals := [];
    }

    function GetValue(): (r: Int32)
      reads this
      ensures r == value
    {
      value
    }

    function IsDefault(): (r: bool)
      reads this
      ensures r <==> GetValue() == defaultValue
    {
      value == defaultValue
    }

    function GetVariant(): (r: Variant)
      reads this
      ensures ToInt(r) == GetValue()
    {
      VInt(value)
    }

    /** setValue stores `v` as given, inside or outside [valueMin, valueMax]. */
    method SetValue(v: Int32)
      modifies this
      ensures GetValue() == v
      ensures signals == old(signals) + (if v != old(value) then [v] else [])
    {
      if value != v {
        value := v;
        signals := signals + [v];
      }
    }

    /** setVariant stores the converted value without signalling. */
    method SetVariant(variant: Variant)
      modifies this
      ensures GetValue() == ToInt(variant) && signals == old(signals)
    {
      value := ToInt(variant);
    }

    /** resetValue signals even when the value already was the default. */
    method ResetValue()
      modifies this
      ensures IsDefault() && signals == old(signals) + [defaultValue]
    {
      value := defaultValue;
      signals := signals + [value];
    }
  }

  class OptionString {
    const name: string
    const optClass: string
    var value: string
    const defaultValue: string
    var signals: seq<string>

    constructor(v: string, name: string, optClass: string)
      ensures value == v && defaultValue == v && IsDefault()
      ensures this.name == name && this.optClass == optClass && signals == []
    {
      this.name := name;
      this.optClass := optClass;
      value := v;
      defaultValue := v;
      signals := [];
    }

    function GetValue(): (r: string)
      reads this
      ensures r == value
    {
      value
    }

    function IsDefault(): (r: bool)
      reads this
      ensures r <==> GetValue() == defaultValue
    {
      value == defaultValue
    }

    function GetVariant(): (r: Variant)
      reads this
      ensures ToString(r) == GetValue()
    {
      VString(value)
    }

    /** setValue assigns and signals, even when the value is unchanged. */
    method SetValue(v: string)
      modifies this
      ensures GetValue() == v && signals == old(signals) + [v]
      ensures IsDefault() <==> v == defaultValue
    {
      value := v;
      signals := signals + [v];
    }

    method SetVariant(variant: Variant)
      modifies this
      ensures GetValue() == ToString(variant) && signals == old(signals)
    {
      value := ToString(variant);
    }

    method ResetValue()
      modifies this
      ensures IsDefault() && signals == old(signals) + [defaultValue]
    {
      value := defaultValue;
      signals := signals + [value];
    }
  }
}
