/**
 * `TgField`, the base of the form field widgets: its prompt, its current-value
 * line, its OK/Cancel keyboard and the callback-value encoder.
 */
module FieldBase {
  import opened Wrappers
  import opened Text
  import opened Protocol

  /** The value types `encode_cb_value` accepts (`TgField.VALUES_TYPES`). */
  const ValuesTypes: seq<string> := ["int", "float", "bool", "string"]

  /** The token of the OK button and of the Cancel button. */
  const OkToken: string := "**ok**"
  const CancelToken: string := "**cancel**"

  /** What a field widget is built with: the label shown in its prompt and its initial value. */
  datatype FieldInfo = FieldInfo(fieldLabel: string, initial: Value)

  /** `get_label`. */
  function GetLabel(f: FieldInfo): string {
    "Send the value of " + f.fieldLabel
  }

  /** `get_current_value`: the staged value if truthy, else `initial` if truthy, else the empty string. */
  function GetCurrentValue(f: FieldInfo, staged: Value): (r: string)
    ensures Truthy(staged) ==> r == "Current value: " + Show(staged)
    ensures !Truthy(staged) && Truthy(f.initial) ==> r == "Current value: " + Show(f.initial)
    ensures !Truthy(staged) && !Truthy(f.initial) ==> r == "Current value: "
  {
    var shown := if Truthy(staged) then staged else if Truthy(f.initial) then f.initial else StrV("");
    "Current value: " + Show(shown)
  }

  /** `get_keyboard`: one row, OK then Cancel. */
  function GetKeyboard(): (k: Keyboard)
    ensures |k| == 1 && |k[0]| == 2
    ensures k[0][0].data == "**ok**" && k[0][1].data == "**cancel**"
  {
    [[Button("OK", OkToken), Button("Cancel", CancelToken)]]
  }

  /**
   * `menu`, given the staged value (`get_run('value')`) and the error slot:
   * always CONTINUE, with label, current value and, only when an error is set,
   * the error, separated by blank lines.
   */
  function Render(f: FieldInfo, staged: Value, error: Option<string>): (r: InputResponse)
    ensures r.status == Continue && r.value == NoneV
    ensures r.menu.Some? && r.menu.value.keyboard == Some(GetKeyboard())
    ensures error.Some? && error.value != "" ==>
      r.menu.value.text == GetLabel(f) + "\n\n" + GetCurrentValue(f, staged) + "\n\n" + error.value
    ensures !(error.Some? && error.value != "") ==>
      r.menu.value.text == GetLabel(f) + "\n\n" + GetCurrentValue(f, staged)
  {
    var message := GetLabel(f) + "\n\n" + GetCurrentValue(f, staged);
    var message' := if error.Some? && error.value != "" then message + "\n\n" + error.value else message;
    InputResponse(Continue, Some(MenuResponse(message', Some(GetKeyboard()))), NoneV)
  }

  /** `TgField.next`: reads the text and returns nothing. */
  function BaseNext(text: string): (r: Option<InputResponse>)
    ensures r == None
  {
    None
  }

  /**
   * `encode_cb_value(op_symbol, value_type, value)`: "op::type::value" with the type
   * lower-cased; a non-string or unknown type is logged and gives None.
   */
  function EncodeCbValue(op: string, valueType: Value, value: Value): (r: Option<string>)
    ensures r.Some? <==> valueType.StrV? && Lower(valueType.s) in ValuesTypes
    ensures r.Some? ==> r.value == op + "::" + Lower(valueType.s) + "::" + Show(value)
  {
    if !valueType.StrV? then None
    else
      var t := Lower(valueType.s);
      if t !in ValuesTypes then None
      else Some(op + "::" + t + "::" + Show(value))
  }

  /** Decoding an encoded callback value with `split("::")` gives back operator, type and value. */
  lemma EncodeCbValueSplits(op: string, valueType: string, value: Value)
    requires ':' !in op && ':' !in Show(value)
    requires Lower(valueType) in ValuesTypes
    ensures EncodeCbValue(op, StrV(valueType), value).Some?
    ensures Split(EncodeCbValue(op, StrV(valueType), value).value) == [op, Lower(valueType), Show(value)]
  {
    var t := Lower(valueType);
    assert ':' !in t by {
      assert t == "int" || t == "float" || t == "bool" || t == "string";
    }
    SplitThree(op, t, Show(value));
  }

  /** The type name is matched case-insensitively: "INT" encodes like "int". */
  lemma EncodeCbValueCaseInsensitive(op: string, valueType: string, value: Value)
    ensures EncodeCbValue(op, StrV(valueType), value) == EncodeCbValue(op, StrV(Lower(valueType)), value)
  {
    LowerIdempotent(valueType);
  }

  /** An integer value round-trips through the encoding. */
  lemma EncodeIntRoundTrip(op: string, n: int)
    requires ':' !in op
    ensures EncodeCbValue(op, StrV("int"), IntV(n)).Some?
    ensures var parts := Split(EncodeCbValue(op, StrV("int"), IntV(n)).value);
      |parts| == 3 && parts[0] == op && ParseInt(parts[2]) == Some(n)
  {
    assert Lower("int") == "int";
    IntToStringNoColon(n);
    EncodeCbValueSplits(op, "int", IntV(n));
    ParseIntToString(n);
  }
}
