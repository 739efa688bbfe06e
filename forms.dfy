/**
 * `BaseForm` of `states/forms.py`: a form that walks the fields of a model one
 * by one, delegating each to an installed input widget (its hook), and ends
 * with a Save/Cancel summary.
 */
module Forms {
  import opened Wrappers
  import opened Text
  import opened Protocol
  import opened Scratch
  import opened FieldBase
  import opened CharFields

  /** `FIELDS_MAP`: Django field class name to input class. */
  const FieldsMap: map<string, InputClass> := map[
    "AutoField" := IntegerInput,
    "BigAutoField" := IntegerInput,
    "BigIntegerField" := IntegerInput,
    "BooleanField" := DjangoBoolean,
    "CharField" := CharInput,
    "DateField" := CalendarFieldInput,
    "FloatField" := FloatInput,
    "TimeField" := TimeFieldInput,
    "TextField" := TextInput,
    "OneToOneField" := UniqueSelectInput,
    "ForeignKey" := UniqueSelectInput,
    "ManyToManyField" := MultipleSelectInput]

  /** `get_input(field)`: the map lookup on the field's class name; a missing name raises KeyError. */
  function GetInput(fieldClass: string): (r: Result<InputClass>)
    ensures r.Ok? <==> fieldClass in FieldsMap
    ensures r.Ok? ==> r.value == FieldsMap[fieldClass]
    ensures r.Err? ==> r.error == KeyError(fieldClass)
  {
    if fieldClass in FieldsMap then Ok(FieldsMap[fieldClass]) else Err(KeyError(fieldClass))
  }

  /**
   * Building the input for a field with `label=` and `initial=`: every bot
   * field accepts them, Django's own BooleanField does not.
   */
  function BuildInput(cls: InputClass, fieldName: string, initial: Value): (r: Result<HookSpec>)
    ensures r.Err? <==> cls == DjangoBoolean
    ensures r.Ok? ==> r.value == FieldHook(cls, fieldName, initial)
  {
    if cls == DjangoBoolean then Err(TypeError("__init__() got an unexpected keyword argument 'label'"))
    else Ok(FieldHook(cls, fieldName, initial))
  }

  /**
   * Which model field classes get an input: the twelve mapped names, except
   * BooleanField, whose mapped class cannot be built; Django's IntegerField is
   * not mapped at all.
   */
  lemma BooleanFieldHasNoInput(name: string, initial: Value)
    ensures GetInput("BooleanField") == Ok(DjangoBoolean)
    ensures BuildInput(GetInput("BooleanField").value, name, initial).Err?
  {
  }

  lemma IntegerFieldIsNotMapped()
    ensures GetInput("IntegerField") == Err(KeyError("IntegerField"))
  {
  }

  /** An illustration of GetInput and BuildInput on one class: a model CharField gets a CharField input. */
  lemma CharFieldGetsCharInput(name: string, initial: Value)
    ensures BuildInput(GetInput("CharField").value, name, initial) == Ok(FieldHook(CharInput, name, initial))
  {
  }

  /** A field of a model: its name and its Django class name. */
  datatype FieldSpec = FieldSpec(name: string, cls: string)

  /** What the form reads of a model class; `defaults` are the field values of a fresh instance. */
  datatype ModelSpec = ModelSpec(className: string, verboseName: string, fields: seq<FieldSpec>, defaults: map<string, Value>)

  /** `"__all__"` expanded: every field name whose class is not AutoField, in model order. */
  function FormFields(fields: seq<FieldSpec>): seq<string> {
    if fields == [] then []
    else (if fields[0].cls != "AutoField" then [fields[0].name] else []) + FormFields(fields[1..])
  }

  lemma {:induction false} FormFieldsExact(fields: seq<FieldSpec>, name: string)
    ensures name in FormFields(fields) <==> exists k :: 0 <= k < |fields| && fields[k].name == name && fields[k].cls != "AutoField"
    ensures |FormFields(fields)| <= |fields|
  {
    if fields != [] {
      FormFieldsExact(fields[1..], name);
      if name in FormFields(fields[1..]) {
        var k :| 0 <= k < |fields[1..]| && fields[1..][k].name == name && fields[1..][k].cls != "AutoField";
        assert fields[k + 1] == fields[1..][k];
      }
      forall k | 1 <= k < |fields| && fields[k].name == name && fields[k].cls != "AutoField"
        ensures name in FormFields(fields[1..])
      {
        assert fields[1..][k - 1] == fields[k];
      }
    }
  }

  /** `model._meta.get_field(name)`: the first field of that name. */
  function FieldNamed(fields: seq<FieldSpec>, name: string): (r: Option<FieldSpec>)
    ensures r.Some? ==> r.value in fields && r.value.name == name
    ensures r.None? ==> forall k :: 0 <= k < |fields| ==> fields[k].name != name
  {
    if fields == [] then None
    else if fields[0].name == name then Some(fields[0])
    else FieldNamed(fields[1..], name)
  }

  /**
   * The input `step_1_menu` installs for a field: look the field up, map its
   * class, and build the input with the instance's current value as `initial`
   * (None without an instance or attribute).
   */
  function FreshHook(model: ModelSpec, fieldName: string, instance: Option<map<string, Value>>): (r: Result<HookSpec>)
    ensures FieldNamed(model.fields, fieldName).None? ==> r == Err(FieldDoesNotExist(fieldName))
    ensures r.Ok? ==> exists f :: (f in model.fields && f.name == fieldName && f.cls in FieldsMap &&
      r.value == FieldHook(FieldsMap[f.cls], fieldName, if instance.Some? then Lookup(instance.value, fieldName, NoneV) else NoneV))
  {
    match FieldNamed(model.fields, fieldName)
    case None => Err(FieldDoesNotExist(fieldName))
    case Some(f) =>
      match GetInput(f.cls)
      case Err(e) => Err(e)
      case Ok(cls) =>
        var initial := if instance.Some? then Lookup(instance.value, fieldName, NoneV) else NoneV;
        BuildInput(cls, fieldName, initial)
  }

  const SummaryHeader: string := "Do you want to save these datas ?\n\n"
  const SummaryKeyboard: Keyboard := [[Button("Save", "action::save"), Button("Cancel", "action::cancel")]]

  /** The summary lines "name; `value`", or AttributeError for the first field the instance lacks. */
  function SummaryLines(fields: seq<string>, inst: map<string, Value>): Result<string>
    decreases |fields|
  {
    if fields == [] then Ok("")
    else
      var last := fields[|fields| - 1];
      match SummaryLines(fields[..|fields| - 1], inst)
      case Err(e) => Err(e)
      case Ok(text) =>
        if last in inst then Ok(text + last + "; `" + Show(inst[last]) + "`\n") else Err(AttributeError(last))
  }

  /** The summary can be shown exactly when the instance has every form field. */
  lemma {:induction false} SummaryLinesOk(fields: seq<string>, inst: map<string, Value>)
    ensures SummaryLines(fields, inst).Ok? <==> forall k :: 0 <= k < |fields| ==> fields[k] in inst
    ensures SummaryLines(fields, inst).Err? ==> exists k :: 0 <= k < |fields| && SummaryLines(fields, inst).error == AttributeError(fields[k]) && fields[k] !in inst
    decreases |fields|
  {
    if fields != [] {
      var init := fields[..|fields| - 1];
      SummaryLinesOk(init, inst);
      assert forall k :: 0 <= k < |init| ==> init[k] == fields[k];
    }
  }

  /** The loop of `step_1_menu` that writes one line per field. */
  method BuildSummary(fields: seq<string>, inst: map<string, Value>) returns (r: Result<string>)
    ensures r == SummaryLines(fields, inst)
  {
    var text := "";
    for k := 0 to |fields|
      invariant SummaryLines(fields[..k], inst) == Ok(text)
    {
      var fd := fields[k];
      assert fields[..k + 1][..k] == fields[..k];
      if fd !in inst {
        SummaryStopsAtError(fields, inst, k + 1);
        return Err(AttributeError(fd));
      }
      text := text + fd + "; `" + Show(inst[fd]) + "`\n";
    }
    assert fields[..|fields|] == fields;
    r := Ok(text);
  }

  /** Once a prefix fails, every longer prefix fails with the same error. */
  lemma {:induction false} SummaryStopsAtError(fields: seq<string>, inst: map<string, Value>, n: nat)
    requires n <= |fields| && SummaryLines(fields[..n], inst).Err?
    ensures SummaryLines(fields, inst) == SummaryLines(fields[..n], inst)
    decreases |fields| - n
  {
    if n < |fields| {
      assert fields[..n + 1][..n] == fields[..n];
      SummaryStopsAtError(fields, inst, n + 1);
    } else {
      assert fields[..n] == fields;
    }
  }

  /** What `step_1_menu` returns: its own menu, a hook's `menu_response`, or a fresh input's whole response. */
  datatype FormMenu = SummaryMenu(menu: MenuResponse) | HookMenu(response: Option<MenuResponse>) | InputMenu(input: Option<InputResponse>)

  /** The ValueError text for a hook answer with an unknown status, given its `repr()`. */
  function BadStatusMessage(shown: string): string {
    "This response (" + shown + ") returned a bad status"
  }

  class BaseForm {
    const model: ModelSpec
    /** `"FORM_" + model.__class__.__name__.upper()`: the class of a model class is ModelBase. */
    const name: string
    const fields: seq<string>
    /** The index in `fields` of the field being asked. */
    var position: nat
    /** None when the constructor was given an instance, otherwise a fresh instance of the model. */
    var instance: Option<map<string, Value>>
    /** The instances written by `save()`, in order. */
    var saved: seq<map<string, Value>>
    /** The form's scratch, whose hook slot holds the installed input. */
    const store: Store

    /**
     * `BaseForm.__init__`. `declared` is a subclass's own `fields`; None stands
     * for `"__all__"`.
     */
    constructor (model: ModelSpec, instanceGiven: bool, declared: Option<seq<string>>, store: Store)
      ensures this.model == model && this.store == store
      ensures position == 0 && saved == []
      ensures instance == if instanceGiven then None else Some(model.defaults)
      ensures fields == if declared.Some? then declared.value else FormFields(model.fields)
      ensures name == "FORM_MODELBASE"
    {
      this.model := model;
      this.store := store;
      position := 0;
      saved := [];
      instance := if instanceGiven then None else Some(model.defaults);
      fields := if declared.Some? then declared.value else FormFields(model.fields);
      name := "FORM_" + "MODELBASE";
    }

    /** The instance as the value a STOP carries. */
    function InstanceValue(inst: map<string, Value>): Value
      reads this
    {
      RecordV(model.className, inst)
    }

    twostate predicate Unchanged()
      reads this, store
    {
      position == old(position) && instance == old(instance) && saved == old(saved) && store.hook == old(store.hook)
    }

    /**
     * `step_1_menu`, given what the installed hook's `menu` returned and what
     * a freshly built input's `menu` returns.
     */
    method Step1Menu(hookMenu: Option<InputResponse>, freshMenu: Option<InputResponse>) returns (r: Result<FormMenu>)
      modifies store
      ensures store.run == old(store.run) && store.error == old(store.error)
      ensures position >= |fields| ==>
        && store.hook == old(store.hook)
        && r == match SummaryLines(fields, if instance.Some? then instance.value else map[])
                case Ok(lines) => Ok(SummaryMenu(MenuResponse(SummaryHeader + lines, Some(SummaryKeyboard))))
                case Err(e) => Err(e)
      ensures position < |fields| && old(store.hook).Some? && hookMenu.None? ==>
        r == Err(AttributeError("status")) && store.hook == old(store.hook)
      ensures position < |fields| && old(store.hook).Some? && hookMenu.Some? && hookMenu.value.status == Continue ==>
        r == Ok(HookMenu(hookMenu.value.menu)) && store.hook == old(store.hook)
      ensures position < |fields| && (old(store.hook).None? || (hookMenu.Some? && hookMenu.value.status != Continue)) ==>
        match FreshHook(model, fields[position], instance)
        case Err(e) => r == Err(e) && store.hook == old(store.hook)
        case Ok(h) => r == Ok(InputMenu(freshMenu)) && store.hook == Some(h)
    {
      if position >= |fields| {
        var inst := if instance.Some? then instance.value else map[];
        var lines := BuildSummary(fields, inst);
        if lines.Err? {
          return Err(lines.error);
        }
        return Ok(SummaryMenu(MenuResponse(SummaryHeader + lines.value, Some(SummaryKeyboard))));
      }
      if store.hook.Some? {
        if hookMenu.None? {
          return Err(AttributeError("status"));
        }
        if hookMenu.value.status == Continue {
          return Ok(HookMenu(hookMenu.value.menu));
        }
      }
      var hook := FreshHook(model, fields[position], instance);
      if hook.Err? {
        return Err(hook.error);
      }
      store.InstallHook(Some(hook.value));
      r := Ok(InputMenu(freshMenu));
    }

    /**
     * `step_1_next`, given what the installed hook's `next` returned. The two
     * action tokens come first; then the current field is looked up, and the
     * hook's status decides: CONTINUE is passed through, ABORT and STOP write
     * None or the value into the field, move to the next field and uninstall
     * the hook. Any other status raises ValueError naming the response by
     * `describe`, its `repr()` (the response class is not part of this model).
     */
    method Step1Next(text: string, hookResult: Option<InputResponse>, describe: InputResponse -> string)
      returns (r: Result<InputResponse>)
      modifies this, store
      ensures store.run == old(store.run) && store.error == old(store.error)
      ensures text == "action::save" ==>
        match old(instance)
        case None => r == Err(AttributeError("save")) && Unchanged()
        case Some(inst) =>
          && r == Ok(InputResponse(Stop, None, InstanceValue(inst)))
          && saved == old(saved) + [inst]
          && position == old(position) && instance == old(instance) && store.hook == old(store.hook)
      ensures text == "action::cancel" ==> r == Ok(InputResponse(Abort, None, NoneV)) && Unchanged()
      ensures text != "action::save" && text != "action::cancel" && old(position) >= |fields| ==>
        r == Err(IndexError) && Unchanged()
      ensures text != "action::save" && text != "action::cancel" && old(position) < |fields| ==>
        var fd := fields[old(position)];
        && (old(store.hook).None? ==> r == Ok(InputResponse(Continue, None, NoneV)) && Unchanged())
        && (old(store.hook).Some? && hookResult.None? ==> r == Err(AttributeError("status")) && Unchanged())
        && (old(store.hook).Some? && hookResult.Some? ==>
              match hookResult.value.status
              case Continue => r == Ok(hookResult.value) && Unchanged()
              case OtherStatus(_) => r == Err(ValueError(BadStatusMessage(describe(hookResult.value)))) && Unchanged()
              case _ =>
                var written := if hookResult.value.status == Stop then hookResult.value.value else NoneV;
                match old(instance)
                case None => r == Err(AttributeError(fd)) && Unchanged()
                case Some(inst) =>
                  && r == Ok(InputResponse(Continue, None, NoneV))
                  && instance == Some(inst[fd := written])
                  && position == old(position) + 1
                  && store.hook == None
                  && saved == old(saved))
    {
      if text == "action::save" {
        if instance.None? {
          return Err(AttributeError("save"));
        }
        saved := saved + [instance.value];
        return Ok(InputResponse(Stop, None, InstanceValue(instance.value)));
      } else if text == "action::cancel" {
        return Ok(InputResponse(Abort, None, NoneV));
      }
      if position >= |fields| {
        return Err(IndexError);
      }
      var fd := fields[position];
      if store.hook.Some? {
        if hookResult.None? {
          return Err(AttributeError("status"));
        }
        var res := hookResult.value;
        if res.status == Continue {
          return Ok(res);
        } else if res.status == Abort {
          if instance.None? {
            return Err(AttributeError(fd));
          }
          instance := Some(instance.value[fd := NoneV]);
          position := position + 1;
          store.InstallHook(None);
        } else if res.status == Stop {
          if instance.None? {
            return Err(AttributeError(fd));
          }
          instance := Some(instance.value[fd := res.value]);
          position := position + 1;
          store.InstallHook(None);
        } else {
          return Err(ValueError(BadStatusMessage(describe(res))));
        }
      }
      r := Ok(InputResponse(Continue, None, NoneV));
    }

    /**
     * One event for a form whose current field is a CharField-family input:
     * the hook's `next` runs only when `step_1_next` reaches it. Cancelling the
     * input writes None into the field and moves on; confirming it writes the
     * staged value and moves on; both uninstall the hook.
     */
    method Step1NextWithCharInput(fieldStore: Store, validate: string -> Result<Checked>, text: string,
                                  describe: InputResponse -> string)
      returns (r: Result<InputResponse>)
      modifies this, store, fieldStore
      ensures var reached := text != "action::save" && text != "action::cancel" && old(position) < |fields| && old(store.hook).Some?;
        reached && old(instance).Some? && (text == CancelToken || text == OkToken) ==>
          && r == Ok(InputResponse(Continue, None, NoneV))
          && position == old(position) + 1
          && store.hook == None
          && instance == Some(old(instance).value[fields[old(position)] :=
               if text == OkToken then old(fieldStore.Get("value", NoneV)) else NoneV])
    {
      if text == "action::save" || text == "action::cancel" || position >= |fields| || store.hook.None? {
        r := Step1Next(text, None, describe);
        return;
      }
      var res := CharNext(fieldStore, validate, text);
      r := Step1Next(text, res, describe);
    }
  }
}
