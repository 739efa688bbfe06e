/**
 * `AbstractStateModel` of `states/models.py`: a CRUD screen over one model
 * with the steps home, add (a form hook), list (a select hook), detail and
 * delete.
 */
module ModelStates {
  import opened Wrappers
  import opened Protocol
  import opened Scratch
  import opened Forms

  /** `number_items`, which `get_number_items` returns: choices per page of the list. */
  const NumberItems: int := 9

  /** A row of the model's table: its `str()` and its attribute values. */
  datatype Row = Row(display: string, values: map<string, Value>)

  /** `model.objects.get(pk=pk)`: a None key matches no row. */
  function Fetch(table: map<Value, Row>, pk: Value): (r: Result<Row>)
    ensures r.Ok? <==> pk != NoneV && pk in table
    ensures r.Ok? ==> r.value == table[pk]
    ensures r.Err? ==> r.error == DoesNotExist
  {
    if pk != NoneV && pk in table then Ok(table[pk]) else Err(DoesNotExist)
  }

  const HomeMenu: MenuResponse := MenuResponse("What do you want to do?", Some([[Button("Add", "add"), Button("List", "list")]]))
  const AbortedMenu: MenuResponse := MenuResponse("Aborted", Some([[Button("Back", "home")]]))
  const DetailKeyboard: Keyboard :=
    [[Button("Del", "del"), Button("Modify", "mod")], [Button("Home", "menu"), Button("Back to List", "list")]]
  const ConfirmKeyboard: Keyboard := [[Button("Yes", "yes"), Button("No", "detail")]]
  const DeletedKeyboard: Keyboard := [[Button("Back", "list")]]

  /** What the add and list menus return for the response of their hook's `menu`. */
  function HookMenuOutcome(res: InputResponse): (r: Option<MenuResponse>)
    ensures res.status == Continue ==> r == res.menu
    ensures res.status == Abort ==> r == Some(AbortedMenu)
    ensures res.status.Stop? || res.status.OtherStatus? ==> r == None
  {
    match res.status
    case Continue => res.menu
    case Abort => Some(AbortedMenu)
    case _ => None
  }

  /** `str(self.model)` for a model class. */
  function ModelRepr(model: ModelSpec): string {
    "<class '" + model.className + "'>"
  }

  /** The names of `model._meta.get_fields()`, in declaration order. */
  function Columns(model: ModelSpec): (cols: seq<string>)
    ensures |cols| == |model.fields|
    ensures forall k :: 0 <= k < |cols| ==> cols[k] == model.fields[k].name
  {
    seq(|model.fields|, k requires 0 <= k < |model.fields| => model.fields[k].name)
  }

  /** The detail lines "column: value", or AttributeError for the first column the row lacks. */
  function DetailLines(cols: seq<string>, values: map<string, Value>): Result<string>
    decreases |cols|
  {
    if cols == [] then Ok("")
    else
      var last := cols[|cols| - 1];
      match DetailLines(cols[..|cols| - 1], values)
      case Err(e) => Err(e)
      case Ok(text) =>
        if last in values then Ok(text + last + ": " + Show(values[last]) + "\n") else Err(AttributeError(last))
  }

  /** The details render exactly when the row has every column, and then list each column's value. */
  lemma {:induction false} DetailLinesOk(cols: seq<string>, values: map<string, Value>)
    ensures DetailLines(cols, values).Ok? <==> forall k :: 0 <= k < |cols| ==> cols[k] in values
    ensures cols != [] && DetailLines(cols, values).Ok? ==>
      DetailLines(cols, values).value ==
        DetailLines(cols[..|cols| - 1], values).value + cols[|cols| - 1] + ": " + Show(values[cols[|cols| - 1]]) + "\n"
    decreases |cols|
  {
    if cols != [] {
      var init := cols[..|cols| - 1];
      DetailLinesOk(init, values);
      assert forall k :: 0 <= k < |init| ==> init[k] == cols[k];
    }
  }

  lemma {:induction false} DetailStopsAtError(cols: seq<string>, values: map<string, Value>, n: nat)
    requires n <= |cols| && DetailLines(cols[..n], values).Err?
    ensures DetailLines(cols, values) == DetailLines(cols[..n], values)
    decreases |cols| - n
  {
    if n < |cols| {
      assert cols[..n + 1][..n] == cols[..n];
      DetailStopsAtError(cols, values, n + 1);
    } else {
      assert cols[..n] == cols;
    }
  }

  /** The loop of `step_4_detail_menu`. */
  method BuildDetail(cols: seq<string>, values: map<string, Value>) returns (r: Result<string>)
    ensures r == DetailLines(cols, values)
  {
    var text := "";
    for k := 0 to |cols|
      invariant DetailLines(cols[..k], values) == Ok(text)
    {
      var col := cols[k];
      assert cols[..k + 1][..k] == cols[..k];
      if col !in values {
        DetailStopsAtError(cols, values, k + 1);
        return Err(AttributeError(col));
      }
      text := text + col + ": " + Show(values[col]) + "\n";
    }
    assert cols[..|cols|] == cols;
    r := Ok(text);
  }

  /** `step_4_detail_menu` on a table and scratch. A fetched row is always truthy, so the "No item selected" branch is never taken. */
  function DetailMenu(model: ModelSpec, table: map<Value, Row>, run: map<string, Value>): Result<MenuResponse> {
    match Fetch(table, Lookup(run, "pk", NoneV))
    case Err(e) => Err(e)
    case Ok(row) =>
      match DetailLines(Columns(model), row.values)
      case Err(e) => Err(e)
      case Ok(lines) => Ok(MenuResponse(model.verboseName + " details\n\n" + lines, Some(DetailKeyboard)))
  }

  /** `"...".format(error)` appended only for a truthy error. */
  function WithError(message: string, error: Option<string>): string {
    if error.Some? && error.value != "" then message + "\n\nError: " + error.value else message
  }

  /** The confirmation or the deleted message, once the row (if any) is known. */
  function DelView(model: ModelSpec, row: Row, run: map<string, Value>, error: Option<string>): MenuResponse {
    if Truthy(Lookup(run, "deleted", BoolV(false))) then
      MenuResponse(model.verboseName + " object deleted", Some(DeletedKeyboard))
    else
      MenuResponse(WithError("Do you really want to delete " + row.display + " ?", error), Some(ConfirmKeyboard))
  }

  /** `step_5_del_menu` as written: the row is fetched before `deleted` is looked at. */
  function DelMenu(model: ModelSpec, table: map<Value, Row>, run: map<string, Value>, error: Option<string>): Result<MenuResponse> {
    match Fetch(table, Lookup(run, "pk", NoneV))
    case Err(e) => Err(e)
    case Ok(row) => Ok(DelView(model, row, run, error))
  }

  /** The scratch `step_5_del_next` leaves after "yes" as written: the row is fetched, not deleted. */
  function DelYes(table: map<Value, Row>, run: map<string, Value>): (r: Result<map<string, Value>>)
    ensures r.Ok? <==> Fetch(table, Lookup(run, "pk", NoneV)).Ok?
    ensures r.Ok? ==> r.value == run["pk" := NoneV]["deleted" := BoolV(true)]
  {
    match Fetch(table, Lookup(run, "pk", NoneV))
    case Err(e) => Err(e)
    case Ok(_) => Ok(run["pk" := NoneV]["deleted" := BoolV(true)])
  }

  /**
   * After a confirmed "yes", the delete menu can only fail: `pk` is None, so
   * the fetch that precedes the `deleted` check raises, and the row it was
   * meant to delete is still in the table.
   */
  lemma DeletedMessageUnreachable(model: ModelSpec, table: map<Value, Row>, run: map<string, Value>, error: Option<string>)
    requires DelYes(table, run).Ok?
    ensures DelMenu(model, table, DelYes(table, run).value, error) == Err(DoesNotExist)
    ensures Lookup(run, "pk", NoneV) in table
  {
  }

  /** The delete menu with `deleted` checked first, so a finished delete needs no row. */
  function DelMenuFixed(model: ModelSpec, table: map<Value, Row>, run: map<string, Value>, error: Option<string>): Result<MenuResponse> {
    if Truthy(Lookup(run, "deleted", BoolV(false))) then
      Ok(MenuResponse(model.verboseName + " object deleted", Some(DeletedKeyboard)))
    else
      match Fetch(table, Lookup(run, "pk", NoneV))
      case Err(e) => Err(e)
      case Ok(row) => Ok(DelView(model, row, run, error))
  }

  /** "yes" with the fetched row removed from the table. */
  function DelYesFixed(table: map<Value, Row>, run: map<string, Value>): (r: Result<(map<Value, Row>, map<string, Value>)>)
    ensures r.Ok? <==> Fetch(table, Lookup(run, "pk", NoneV)).Ok?
  {
    var pk := Lookup(run, "pk", NoneV);
    match Fetch(table, pk)
    case Err(e) => Err(e)
    case Ok(_) => Ok((table - {pk}, run["pk" := NoneV]["deleted" := BoolV(true)]))
  }

  /**
   * With both corrections a confirmed delete removes exactly that row and the
   * next delete menu reports it; before any delete the two menus agree.
   */
  lemma DeleteThenReport(model: ModelSpec, table: map<Value, Row>, run: map<string, Value>, error: Option<string>)
    requires DelYesFixed(table, run).Ok?
    ensures var (table', run') := DelYesFixed(table, run).value;
      && Lookup(run, "pk", NoneV) !in table'
      && (forall k :: k in table' <==> k in table && k != Lookup(run, "pk", NoneV))
      && DelMenuFixed(model, table', run', error) ==
           Ok(MenuResponse(model.verboseName + " object deleted", Some(DeletedKeyboard)))
  {
  }

  lemma DelMenuFixedAgrees(model: ModelSpec, table: map<Value, Row>, run: map<string, Value>, error: Option<string>)
    requires !Truthy(Lookup(run, "deleted", BoolV(false)))
    ensures DelMenuFixed(model, table, run, error) == DelMenu(model, table, run, error)
  {
  }

  class ModelState {
    /** The state's registered name, the target of its own NextResponses. */
    const name: string
    const model: ModelSpec
    /** `model.objects`, keyed by primary key. */
    const table: map<Value, Row>
    const store: Store

    constructor (name: string, model: ModelSpec, table: map<Value, Row>, store: Store)
      ensures this.name == name && this.model == model && this.table == table && this.store == store
    {
      this.name := name;
      this.model := model;
      this.table := table;
      this.store := store;
    }

    /** `step_1_home_menu`. */
    function Home(): (r: MenuResponse)
      ensures r.keyboard == Some([[Button("Add", "add"), Button("List", "list")]])
    {
      HomeMenu
    }

    /** `get_number_items`. */
    function GetNumberItems(): (n: int)
      ensures n == 9
    {
      NumberItems
    }

    /** Install `h` unless a hook is already installed (`if not Hook_instance`). */
    method EnsureHook(h: HookSpec)
      modifies store
      ensures store.hook == if old(store.hook).None? then Some(h) else old(store.hook)
      ensures store.run == old(store.run) && store.error == old(store.error)
    {
      if store.hook.None? {
        store.InstallHook(Some(h));
      }
    }

    /** `step_2_add_menu`, given what the (possibly fresh) form hook's `menu` returned. */
    method AddMenu(hookMenu: Option<InputResponse>) returns (r: Result<Option<MenuResponse>>)
      modifies store
      ensures store.hook == if old(store.hook).None? then Some(FormHook(model.className)) else old(store.hook)
      ensures store.run == old(store.run) && store.error == old(store.error)
      ensures hookMenu.None? ==> r == Err(AttributeError("status"))
      ensures hookMenu.Some? ==> r == Ok(HookMenuOutcome(hookMenu.value))
    {
      EnsureHook(FormHook(model.className));
      if hookMenu.None? {
        return Err(AttributeError("status"));
      }
      r := Ok(HookMenuOutcome(hookMenu.value));
    }

    /** `step_2_add_next`: stay while the form continues, otherwise go to the list; the hook is kept. */
    method AddNext(hookNext: Option<InputResponse>) returns (r: Result<NextResponse>)
      modifies store
      ensures store.hook == if old(store.hook).None? then Some(FormHook(model.className)) else old(store.hook)
      ensures store.run == old(store.run) && store.error == old(store.error)
      ensures hookNext.None? ==> r == Err(AttributeError("status"))
      ensures hookNext.Some? && hookNext.value.status == Continue ==> r == Ok(NextResponse(name, NoStep, None))
      ensures hookNext.Some? && hookNext.value.status != Continue ==> r == Ok(NextResponse(name, StepName("list"), None))
    {
      EnsureHook(FormHook(model.className));
      if hookNext.None? {
        return Err(AttributeError("status"));
      }
      if hookNext.value.status == Continue {
        r := Ok(NextResponse(name, NoStep, None));
      } else {
        r := Ok(NextResponse(name, StepName("list"), None));
      }
    }

    /** `step_3_list_menu`: the select hook is named after the model's metaclass, "ModelBase". */
    method ListMenu(hookMenu: Option<InputResponse>) returns (r: Result<Option<MenuResponse>>)
      modifies store
      ensures store.hook == if old(store.hook).None? then Some(SelectHook("ModelBase", GetNumberItems())) else old(store.hook)
      ensures store.run == old(store.run) && store.error == old(store.error)
      ensures hookMenu.None? ==> r == Err(AttributeError("status"))
      ensures hookMenu.Some? ==> r == Ok(HookMenuOutcome(hookMenu.value))
    {
      EnsureHook(SelectHook("ModelBase", GetNumberItems()));
      if hookMenu.None? {
        return Err(AttributeError("status"));
      }
      r := Ok(HookMenuOutcome(hookMenu.value));
    }

    /**
     * `step_3_list_next`: a truthy pick is stored as `pk` and opens the
     * detail; a falsy pick goes home keeping the hook; ABORT (or any other
     * status) goes home clearing it.
     */
    method ListNext(hookNext: Option<InputResponse>) returns (r: Result<NextResponse>)
      modifies store
      ensures store.error == old(store.error)
      ensures var installed := if old(store.hook).None? then Some(SelectHook(ModelRepr(model), GetNumberItems())) else old(store.hook);
        && (hookNext.None? ==> r == Err(AttributeError("status")) && store.hook == installed && store.run == old(store.run))
        && (hookNext.Some? ==>
              var res := hookNext.value;
              match res.status
              case Continue =>
                r == Ok(NextResponse(name, NoStep, None)) && store.hook == installed && store.run == old(store.run)
              case Stop =>
                if Truthy(res.value) then
                  r == Ok(NextResponse(name, StepName("detail"), None)) && store.hook == None && store.run == old(store.run)["pk" := res.value]
                else
                  r == Ok(NextResponse(name, StepName("home"), None)) && store.hook == installed && store.run == old(store.run)
              case _ =>
                r == Ok(NextResponse(name, StepName("home"), None)) && store.hook == None && store.run == old(store.run))
    {
      EnsureHook(SelectHook(ModelRepr(model), GetNumberItems()));
      if hookNext.None? {
        return Err(AttributeError("status"));
      }
      var res := hookNext.value;
      if res.status == Continue {
        r := Ok(NextResponse(name, NoStep, None));
      } else if res.status == Stop {
        if Truthy(res.value) {
          store.Set("pk", res.value);
          store.InstallHook(None);
          r := Ok(NextResponse(name, StepName("detail"), None));
        } else {
          r := Ok(NextResponse(name, StepName("home"), None));
        }
      } else {
        store.InstallHook(None);
        r := Ok(NextResponse(name, StepName("home"), None));
      }
    }

    /** `step_4_detail_menu`: the row's verbose name and every column with its value. */
    method Detail() returns (r: Result<MenuResponse>)
      ensures r == DetailMenu(model, table, store.run)
    {
      var fetched := Fetch(table, store.Get("pk", NoneV));
      if fetched.Err? {
        return Err(fetched.error);
      }
      var lines := BuildDetail(Columns(model), fetched.value.values);
      if lines.Err? {
        return Err(lines.error);
      }
      r := Ok(MenuResponse(model.verboseName + " details\n\n" + lines.value, Some(DetailKeyboard)));
    }

    /** `step_5_del_menu`, on this state's table and scratch. */
    method Del() returns (r: Result<MenuResponse>)
      ensures r == DelMenu(model, table, store.run, store.error)
    {
      r := DelMenu(model, table, store.run, store.error);
    }

    /** `step_5_del_next`: the step always stays; only "yes" touches scratch. */
    method DelNext(text: string) returns (r: Result<NextResponse>)
      modifies store
      ensures store.hook == old(store.hook) && store.error == old(store.error)
      ensures text != "yes" ==> r == Ok(NextResponse(name, NoStep, None)) && store.run == old(store.run)
      ensures text == "yes" ==>
        match DelYes(table, old(store.run))
        case Err(e) => r == Err(e) && store.run == old(store.run)
        case Ok(run') => r == Ok(NextResponse(name, NoStep, None)) && store.run == run'
    {
      if text == "yes" {
        var fetched := Fetch(table, store.Get("pk", NoneV));
        if fetched.Err? {
          return Err(fetched.error);
        }
        store.Set("pk", NoneV);
        store.Set("deleted", BoolV(true));
      }
      r := Ok(NextResponse(name, NoStep, None));
    }
  }
}
