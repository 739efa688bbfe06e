/**
 * `CharField` and its subclasses `TextField` and `EmailField`: the
 * `**ok**`/`**cancel**` token protocol over a staged value in scratch, and the
 * length validation.
 */
module CharFields {
  import opened Wrappers
  import opened Protocol
  import opened Scratch
  import opened FieldBase

  const TooLongMessage: string := "The submitted value is greater than the max length allowed"
  const TooShortMessage: string := "The submitted value is lower than the min length allowed"
  const BlankMessage: string := "The field can't be blank"

  /**
   * A built CharField. A limit of 0 stands for a falsy `max_length`/`min_length`
   * (0 or None), which switches that check off.
   */
  datatype CharConfig = CharConfig(info: FieldInfo, maxLength: int, minLength: int, acceptNull: bool, acceptBlank: bool)

  /** The keyword arguments of the constructor; None is "not passed". */
  datatype CharKwargs = CharKwargs(
    fieldLabel: string,
    initial: Value,
    maxLength: Option<int>,
    minLength: Option<int>,
    nullOk: Option<bool>,
    blankOk: Option<bool>,
    value: Option<Value>)

  function OrElse<T>(o: Option<T>, default: T): T {
    if o.Some? then o.value else default
  }

  /**
   * `CharField.__init__`: defaults `max_length=255`, `min_length=1`,
   * `null=False`, `blank=False`. A `value` keyword other than -1 reaches
   * `set_run('value', value)`, where `value` is an undefined name.
   */
  function NewCharField(kw: CharKwargs): (r: Result<CharConfig>)
    ensures r.Err? <==> kw.value.Some? && kw.value.value != IntV(-1)
    ensures r.Err? ==> r.error == NameError("value")
    ensures r.Ok? ==> r.value.info == FieldInfo(kw.fieldLabel, kw.initial)
    ensures r.Ok? ==> r.value.maxLength == (if kw.maxLength.Some? then kw.maxLength.value else 255)
    ensures r.Ok? ==> r.value.minLength == (if kw.minLength.Some? then kw.minLength.value else 1)
    ensures r.Ok? ==> r.value.acceptNull == (kw.nullOk == Some(true))
    ensures r.Ok? ==> r.value.acceptBlank == (kw.blankOk == Some(true))
  {
    var value := OrElse(kw.value, IntV(-1));
    if value != IntV(-1) then Err(NameError("value"))
    else Ok(CharConfig(FieldInfo(kw.fieldLabel, kw.initial),
                       OrElse(kw.maxLength, 255), OrElse(kw.minLength, 1),
                       OrElse(kw.nullOk, false), OrElse(kw.blankOk, false)))
  }

  /** `TextField.__init__`: forces `null`, `blank` and `max_length=4096`, then builds a CharField. */
  function NewTextField(kw: CharKwargs): (r: Result<CharConfig>)
    ensures r.Ok? <==> NewCharField(kw).Ok?
    ensures r.Ok? ==> r.value.maxLength == 4096 && r.value.acceptNull && r.value.acceptBlank
    ensures r.Ok? ==> r.value.minLength == (if kw.minLength.Some? then kw.minLength.value else 1)
  {
    NewCharField(kw.(nullOk := Some(true), blankOk := Some(true), maxLength := Some(4096)))
  }

  /** The outcome of `validate_data`: `(True, value)` or `(False, message)`. */
  datatype Checked = Accept(value: Value) | Reject(message: string)

  /**
   * `CharField.validate_data`: the max-length check comes first, then the
   * min-length check. (The blank check tests `value is None`, which a text
   * never is.)
   */
  function CharValidate(c: CharConfig, text: string): (r: Checked)
    ensures r.Accept? <==> (c.maxLength == 0 || |text| <= c.maxLength) && (c.minLength == 0 || |text| >= c.minLength)
    ensures r.Accept? ==> r.value == StrV(text)
    ensures c.maxLength != 0 && |text| > c.maxLength ==> r == Reject(TooLongMessage)
    ensures (c.maxLength == 0 || |text| <= c.maxLength) && c.minLength != 0 && |text| < c.minLength ==>
      r == Reject(TooShortMessage)
  {
    if c.maxLength != 0 && |text| > c.maxLength then Reject(TooLongMessage)
    else if c.minLength != 0 && |text| < c.minLength then Reject(TooShortMessage)
    else Accept(StrV(text))
  }

  /** With the constructor defaults, the empty text is refused and texts of 1 to 255 characters are taken. */
  lemma DefaultLengths(name: string, initial: Value, text: string)
    ensures var c := NewCharField(CharKwargs(name, initial, None, None, None, None, None));
      c.Ok? && (CharValidate(c.value, text).Accept? <==> 1 <= |text| <= 255)
  {
  }

  /** A TextField takes texts of 1 to 4096 characters. */
  lemma TextFieldLengths(name: string, initial: Value, text: string)
    ensures var c := NewTextField(CharKwargs(name, initial, None, None, None, None, None));
      c.Ok? && (CharValidate(c.value, text).Accept? <==> 1 <= |text| <= 4096)
  {
  }

  /**
   * `EmailField.validate_data`: the pattern is empty, so it always matches,
   * and asking the match for group 1 raises IndexError.
   */
  function EmailValidate(text: string): (r: Result<Checked>)
    ensures r == Err(IndexError)
  {
    Err(IndexError)
  }

  /**
   * `CharField.next` (inherited by every subclass; `validate` is the
   * subclass's `validate_data`). `**ok**` hands back and clears the staged
   * value; `**cancel**` aborts and leaves it; any other text is validated and
   * either staged or recorded as the error. An exception gives None.
   */
  method CharNext(s: Store, validate: string -> Result<Checked>, text: string) returns (r: Option<InputResponse>)
    modifies s
    ensures s.hook == old(s.hook)
    ensures text == OkToken ==>
      && r == Some(InputResponse(Stop, None, old(s.Get("value", NoneV))))
      && s.run == old(s.run)["value" := NoneV] && s.error == old(s.error)
    ensures text == CancelToken ==>
      r == Some(InputResponse(Abort, None, NoneV)) && s.run == old(s.run) && s.error == old(s.error)
    ensures text != OkToken && text != CancelToken && validate(text).Err? ==>
      r == None && s.run == old(s.run) && s.error == old(s.error)
    ensures text != OkToken && text != CancelToken && validate(text).Ok? && validate(text).value.Reject? ==>
      var m := validate(text).value.message;
      r == Some(InputResponse(Continue, None, StrV(m))) && s.run == old(s.run) && s.error == Some(m)
    ensures text != OkToken && text != CancelToken && validate(text).Ok? && validate(text).value.Accept? ==>
      var v := validate(text).value.value;
      r == Some(InputResponse(Continue, None, v)) && s.run == old(s.run)["value" := v] && s.error == old(s.error)
  {
    if text == OkToken {
      var value := s.Get("value", NoneV);
      s.Set("value", NoneV);
      return Some(InputResponse(Stop, None, value));
    } else if text == CancelToken {
      return Some(InputResponse(Abort, None, NoneV));
    }
    var checked := validate(text);
    if checked.Err? {
      return None;
    }
    match checked.value {
      case Reject(message) =>
        s.SetError(message);
        r := Some(InputResponse(Continue, None, StrV(message)));
      case Accept(value) =>
        s.Set("value", value);
        r := Some(InputResponse(Continue, None, value));
    }
  }
}
