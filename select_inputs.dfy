/**
 * `SelectInput` of `inputs/datetime.py`: a paginated list of choices answered
 * with `action::value` tokens. The selection of a multiple select is a list
 * object that the widget appends to in place; `initial` is that same object.
 */
module SelectInputs {
  import opened Wrappers
  import opened Text
  import opened Protocol
  import opened Scratch
  import opened Gregorian

  // ---------------------------------------------------------------------
  // Python integer operators
  // ---------------------------------------------------------------------

  /** Python's `a // b`: the floor of the quotient, also for a negative divisor. */
  function FloorDiv(a: int, b: int): int
    requires b != 0
  {
    if b > 0 then a / b else (-a) / (-b)
  }

  /** Python's `a % b`: the remainder takes the sign of the divisor. */
  function FloorMod(a: int, b: int): int
    requires b != 0
  {
    a - b * FloorDiv(a, b)
  }

  lemma FloorDivMod(a: int, b: int)
    requires b != 0
    ensures a == b * FloorDiv(a, b) + FloorMod(a, b)
    ensures b > 0 ==> 0 <= FloorMod(a, b) < b
    ensures b < 0 ==> b < FloorMod(a, b) <= 0
  {
  }

  function Min(a: int, b: int): int { if a <= b then a else b }

  function Max(a: int, b: int): int { if a >= b then a else b }

  /** A slice bound as Python normalises it: negatives count from the end, then clamp to `0..n`. */
  function SliceIndex(i: int, n: nat): (c: nat)
    ensures c <= n
  {
    if i < 0 then (if i + n < 0 then 0 else i + n) else if i > n then n else i
  }

  /** `s[i:j]`. */
  function PySlice<T>(s: seq<T>, i: int, j: int): (r: seq<T>)
    ensures |r| <= |s|
  {
    var a := SliceIndex(i, |s|);
    var b := SliceIndex(j, |s|);
    if a < b then s[a..b] else []
  }

  // ---------------------------------------------------------------------
  // Choices, marks and the page window
  // ---------------------------------------------------------------------

  /**
   * A choice: a `(text, value)` tuple, or a plain row that is both its text and
   * its value. A value is any Python value; its token carries its `str()`.
   */
  datatype Choice = Pair(caption: string, value: Value) | Plain(item: Value)

  function ChoiceValue(c: Choice): Value {
    if c.Pair? then c.value else c.item
  }

  /** The callback token of a choice: `"value::{}".format(value)`. */
  function ChoiceToken(c: Choice): string {
    "value::" + Show(ChoiceValue(c))
  }

  /** `t in s` for two strings: t occurs in s at some position. */
  predicate IsSubstring(t: string, s: string) {
    exists i :: 0 <= i <= |s| && t <= s[i..]
  }

  /**
   * `x in container`: membership for a list, a substring test for a string and
   * a key test for the date dict. A container without a membership test, a
   * non-string probe of a string and a list probe of a dict raise TypeError.
   */
  function Contains(container: Value, x: Value): Result<bool> {
    match container
    case ListV(items) => Ok(x in items)
    case StrV(s) =>
      if x.StrV? then Ok(IsSubstring(x.s, s)) else Err(TypeError("'in <string>' requires string as left operand"))
    case DateV(_, _, _) =>
      if x.ListV? then Err(TypeError("unhashable type: 'list'"))
      else Ok(x == StrV("year") || x == StrV("month") || x == StrV("day"))
    case _ => Err(TypeError("argument is not iterable"))
  }

  /**
   * Whether a choice value is shown as selected: `value in selected` for a
   * multiple select, `value == selected` for a single one.
   */
  function Marked(multiple: bool, held: Value, v: Value): Result<bool> {
    if multiple then Contains(held, v) else Ok(v == held)
  }

  /**
   * The selection after `value::v`: v appended to the list of a multiple select,
   * or replacing the value of a single one. A multiple select whose selection is
   * not a list has no `append`: None.
   */
  function Picked(multiple: bool, held: Value, v: string): Option<Value> {
    if !multiple then Some(StrV(v))
    else if held.ListV? then Some(ListV(held.items + [StrV(v)]))
    else None
  }

  const CheckMark: string := " ✅"

  /**
   * The button of one choice: its text, with the check mark when selected, and
   * its token. None when the membership test raises, or when a plain row whose
   * value is not a string is marked (`text += " ✅"` raises TypeError).
   */
  function ChoiceButton(c: Choice, multiple: bool, held: Value): Option<Button> {
    var marked := Marked(multiple, held, ChoiceValue(c));
    if marked.Err? then None
    else if !marked.value then Some(Button(if c.Pair? then c.caption else Show(c.item), ChoiceToken(c)))
    else if c.Pair? then Some(Button(c.caption + CheckMark, ChoiceToken(c)))
    else if c.item.StrV? then Some(Button(c.item.s + CheckMark, ChoiceToken(c)))
    else None
  }

  /** The rows of a page's choices, one button each, or None when a row raises. */
  function ChoiceRows(choices: seq<Choice>, multiple: bool, held: Value): Option<Keyboard> {
    if forall k :: 0 <= k < |choices| ==> ChoiceButton(choices[k], multiple, held).Some? then
      Some(seq(|choices|, k requires 0 <= k < |choices| => [ChoiceButton(choices[k], multiple, held).value]))
    else
      None
  }

  /** The pages after `start`: `range(start + 1, min(all_pages, start + 3) + 1)`. */
  function ForwardPages(start: int, total: nat, offset: int): seq<int>
    requires offset != 0
  {
    Range(start + 1, Min(FloorDiv(total, offset), start + 3) + 1)
  }

  /** The pages before `start` that fill the window up to three, negatives dropped. */
  function BackPages(start: int, total: nat, offset: int): seq<int>
    requires offset != 0
  {
    var avail := 3 - |ForwardPages(start, total, offset)|;
    if avail != 0 then Range(Max(start - avail, 0), start) else []
  }

  /** The numbered page buttons, in ascending order: `sorted(inside)`. */
  function PageWindow(start: int, total: nat, offset: int): seq<int>
    requires offset != 0
  {
    BackPages(start, total, offset) + ForwardPages(start, total, offset)
  }

  predicate Ascending(s: seq<int>) {
    forall i, j :: 0 <= i < j < |s| ==> s[i] < s[j]
  }

  /** Whether the forward arrow is shown. */
  predicate ShowsForward(start: int, total: nat, offset: int)
    requires offset != 0
  {
    var allPages := FloorDiv(total, offset);
    !(start > allPages || (start == allPages && FloorMod(total, offset) != 0))
  }

  function NavToken(page: int): string {
    "nav::" + IntToString(page)
  }

  function PageButtons(pages: seq<int>): seq<Button> {
    seq(|pages|, k requires 0 <= k < |pages| => Button(IntToString(pages[k] + 1), NavToken(pages[k])))
  }

  /** The navigation row: back arrow, numbered pages, forward arrow. */
  function PageRow(start: int, total: nat, offset: int): seq<Button>
    requires offset != 0
  {
    (if start > 0 then [Button("⏪", NavToken(start - 1))] else [])
    + PageButtons(PageWindow(start, total, offset))
    + (if ShowsForward(start, total, offset) then [Button("⏩", NavToken(start + 1))] else [])
  }

  const OkCancelRow: seq<Button> := [Button("OK", "ok::ok"), Button("Cancel", "cancel::cancel")]

  /** The keyboard of `SelectInput.menu` for page `start`, or None when a choice row raises. */
  function SelectGrid(choices: seq<Choice>, multiple: bool, held: Value, start: int, offset: int): Option<Keyboard>
    requires offset != 0
  {
    var rows := ChoiceRows(PySlice(choices, start * offset, start * offset + offset), multiple, held);
    if rows.None? then None else Some(rows.value + [PageRow(start, |choices|, offset), OkCancelRow])
  }

  /**
   * The window is `sorted(inside)`: ascending and holding exactly the forward
   * and back pages; it has at most three pages and never the current one.
   */
  lemma PageWindowShape(start: int, total: nat, offset: int)
    requires offset != 0
    ensures var w := PageWindow(start, total, offset);
      && Ascending(w)
      && multiset(w) == multiset(ForwardPages(start, total, offset) + BackPages(start, total, offset))
      && |w| <= 3
      && start !in w
      && (start >= 0 ==> forall p :: p in w ==> 0 <= p && start - 3 <= p <= start + 3)
  {
    var f := ForwardPages(start, total, offset);
    var b := BackPages(start, total, offset);
    var w := PageWindow(start, total, offset);
    assert forall i :: 0 <= i < |b| ==> b[i] < start;
    assert forall i :: 0 <= i < |f| ==> f[i] > start;
    assert forall i :: 0 <= i < |w| ==> (i < |b| ==> w[i] == b[i]) && (i >= |b| ==> w[i] == f[i - |b|]);
    assert multiset(w) == multiset(f + b) by {
      assert multiset(b + f) == multiset(b) + multiset(f) == multiset(f + b);
    }
  }

  /** The back arrow is shown exactly when not on the first page. */
  lemma BackArrow(start: int, total: nat, offset: int)
    requires offset != 0
    ensures var row := PageRow(start, total, offset);
      start > 0 <==> (|row| > 0 && row[0] == Button("⏪", NavToken(start - 1)))
  {
    var row := PageRow(start, total, offset);
    if start <= 0 && |row| > 0 {
      var w := PageWindow(start, total, offset);
      if |w| > 0 {
        assert row[0] == Button(IntToString(w[0] + 1), NavToken(w[0]));
        assert row[0].caption != "⏪" by {
          assert IsDigit(IntToString(w[0] + 1)[|IntToString(w[0] + 1)| - 1]);
        }
      } else {
        assert row[0].caption == "⏩";
      }
    }
  }

  /**
   * The forward arrow is hidden exactly past page `len // offset`, or on that
   * page when it is partly filled; when the choices fill their pages exactly,
   * page `len // offset` is empty and still offers the arrow.
   */
  lemma ForwardArrow(start: int, total: nat, offset: int)
    requires offset != 0
    ensures var row := PageRow(start, total, offset);
      var allPages := FloorDiv(total, offset);
      !(start > allPages || (start == allPages && FloorMod(total, offset) != 0)) <==>
        (|row| > 0 && row[|row| - 1] == Button("⏩", NavToken(start + 1)))
  {
    var row := PageRow(start, total, offset);
    if !ShowsForward(start, total, offset) && |row| > 0 {
      var w := PageWindow(start, total, offset);
      if |w| > 0 {
        var last := w[|w| - 1];
        assert row[|row| - 1] == Button(IntToString(last + 1), NavToken(last));
        assert IsDigit(IntToString(last + 1)[|IntToString(last + 1)| - 1]);
      }
    }
  }

  /** 95 choices, ten per page: the first page offers pages 2, 3 and 4 (indices 1 to 3) and the forward arrow. */
  lemma FirstPageExample()
    ensures PageWindow(0, 95, 10) == [1, 2, 3]
    ensures ShowsForward(0, 95, 10)
  {
  }

  /** On the last, partly filled page (index 9) the window backfills to indices 6 to 8 and the forward arrow is gone. */
  lemma LastPageExample()
    ensures PageWindow(9, 95, 10) == [6, 7, 8]
    ensures !ShowsForward(9, 95, 10)
  {
    assert ForwardPages(9, 95, 10) == [];
    assert Range(6, 9) == [6, 7, 8];
  }

  /** A page of a positive offset shows exactly the choices whose index falls in it, in order. */
  lemma PageSlice(choices: seq<Choice>, start: int, offset: int, k: int)
    requires offset > 0 && start >= 0
    requires start * offset <= k < |choices| && k < start * offset + offset
    ensures var page := PySlice(choices, start * offset, start * offset + offset);
      0 <= k - start * offset < |page| && page[k - start * offset] == choices[k]
  {
  }

  /** A page token reads back as its page number. */
  lemma NavTokenRoundTrip(page: int)
    ensures Split(NavToken(page)) == ["nav", IntToString(page)]
    ensures ParseInt(Split(NavToken(page))[1]) == Some(page)
  {
    IntToStringNoColon(page);
    assert NavToken(page) == "nav" + "::" + IntToString(page);
    SplitTwo("nav", IntToString(page));
    ParseIntToString(page);
  }

  /** A choice token splits into "value" and the `str()` of the choice's value, when that holds no colon. */
  lemma ChoiceTokenSplits(c: Choice)
    requires ':' !in Show(ChoiceValue(c))
    ensures Split(ChoiceToken(c)) == ["value", Show(ChoiceValue(c))]
  {
    assert ChoiceToken(c) == "value" + "::" + Show(ChoiceValue(c));
    SplitTwo("value", Show(ChoiceValue(c)));
  }

  /**
   * Picking a choice whose value is a string marks it: the pick is the very
   * value the menu compares with.
   */
  lemma PickMarksStringChoice(c: Choice, multiple: bool, held: Value)
    requires ChoiceValue(c).StrV? && ':' !in ChoiceValue(c).s
    requires multiple ==> held.ListV?
    ensures Split(ChoiceToken(c)) == ["value", ChoiceValue(c).s]
    ensures var picked := Picked(multiple, held, ChoiceValue(c).s);
      picked.Some? && Marked(multiple, picked.value, ChoiceValue(c)) == Ok(true)
  {
    ChoiceTokenSplits(c);
    var v := ChoiceValue(c);
    if multiple {
      assert Picked(multiple, held, v.s).value.items[|held.items|] == v;
    }
  }

  /**
   * Picking a choice whose value is an integer never marks it: the token hands
   * back the digits as a string, and a string never equals an integer. A
   * multiple select still marks it only when the list held it already.
   */
  lemma PickLeavesIntChoiceUnmarked(c: Choice, multiple: bool, held: Value)
    requires ChoiceValue(c).IntV?
    requires multiple ==> held.ListV?
    ensures var n := ChoiceValue(c).i;
      && Split(ChoiceToken(c)) == ["value", IntToString(n)]
      && var picked := Picked(multiple, held, IntToString(n));
      && picked.Some?
      && Marked(multiple, picked.value, IntV(n)) == Ok(multiple && IntV(n) in held.items)
  {
    var n := ChoiceValue(c).i;
    IntToStringNoColon(n);
    ChoiceTokenSplits(c);
    if multiple {
      var items := held.items + [StrV(IntToString(n))];
      assert IntV(n) in items <==> IntV(n) in held.items by {
        if IntV(n) in items {
          var k :| 0 <= k < |items| && items[k] == IntV(n);
          assert k < |held.items|;
        }
      }
    }
  }

  /**
   * A multiple select whose selection is not a list fails every pick, and a
   * selection with no membership test at all fails every page with a choice.
   */
  lemma MultipleWithoutListFails(choices: seq<Choice>, held: Value, v: string)
    requires !held.ListV?
    ensures Picked(true, held, v) == None
    ensures (held.NoneV? || held.IntV? || held.BoolV? || held.RecordV?) && |choices| > 0 ==>
      ChoiceRows(choices, true, held) == None
  {
    if (held.NoneV? || held.IntV? || held.BoolV? || held.RecordV?) && |choices| > 0 {
      assert ChoiceButton(choices[0], true, held) == None;
    }
  }

  /** A single select whose selection is a list marks no choice whose value is a string or an integer. */
  lemma SingleWithListMarksNothing(c: Choice, items: seq<Value>)
    requires ChoiceValue(c).StrV? || ChoiceValue(c).IntV?
    ensures Marked(false, ListV(items), ChoiceValue(c)) == Ok(false)
    ensures ChoiceButton(c, false, ListV(items)) ==
      Some(Button(if c.Pair? then c.caption else Show(c.item), ChoiceToken(c)))
  {
  }

  // ---------------------------------------------------------------------
  // The keyboard loops of `menu`
  // ---------------------------------------------------------------------

  /** The body of the loop over the choices: one row's button, or None when it raises. */
  method BuildChoiceButton(c: Choice, multiple: bool, held: Value) returns (b: Option<Button>)
    ensures b == ChoiceButton(c, multiple, held)
  {
    var value := ChoiceValue(c);
    var marked := Marked(multiple, held, value);
    if marked.Err? {
      return None;
    }
    var text := if c.Pair? then c.caption else Show(c.item);
    if marked.value {
      if c.Plain? && !c.item.StrV? {
        return None;
      }
      text := text + CheckMark;
    }
    b := Some(Button(text, "value::" + Show(value)));
  }

  /** The loop over the choices of the page; an exception in any row gives None. */
  method BuildChoiceRows(choices: seq<Choice>, multiple: bool, held: Value) returns (rows: Option<Keyboard>)
    ensures rows == ChoiceRows(choices, multiple, held)
  {
    var acc: Keyboard := [];
    for k := 0 to |choices|
      invariant forall i :: 0 <= i < k ==> ChoiceButton(choices[i], multiple, held).Some?
      invariant |acc| == k
      invariant forall i :: 0 <= i < k ==> acc[i] == [ChoiceButton(choices[i], multiple, held).value]
    {
      var b := BuildChoiceButton(choices[k], multiple, held);
      if b.None? {
        assert !ChoiceButton(choices[k], multiple, held).Some?;
        return None;
      }
      acc := acc + [[b.value]];
    }
    assert ChoiceRows(choices, multiple, held).Some?;
    assert acc == ChoiceRows(choices, multiple, held).value;
    rows := Some(acc);
  }

  /** The first loop of the window: `range(start + 1, range_max + 1)`. */
  method CollectForward(start: int, rangeMax: int) returns (inside: seq<int>)
    ensures inside == Range(start + 1, rangeMax + 1)
  {
    inside := [];
    var page := start + 1;
    while page <= rangeMax
      invariant start + 1 <= page && (page <= rangeMax + 1 || page == start + 1)
      invariant inside == Range(start + 1, page)
      decreases rangeMax - page
    {
      inside := inside + [page];
      page := page + 1;
    }
  }

  /** The second loop of the window: `range(start - avail, start)`, negative pages skipped. */
  method CollectBack(start: int, avail: int) returns (back: seq<int>)
    ensures back == Range(Max(start - avail, 0), start)
  {
    back := [];
    var lo := Max(start - avail, 0);
    var page := start - avail;
    if page > start {
      return;
    }
    while page < start
      invariant start - avail <= page <= start
      invariant back == Range(lo, Max(page, lo))
    {
      if page >= 0 {
        assert Range(lo, page + 1) == Range(lo, page) + [page];
        back := back + [page];
      }
      page := page + 1;
    }
  }

  /** The two loops that collect `inside`, and the sort. */
  method BuildPageWindow(start: int, total: nat, offset: int) returns (pages: seq<int>)
    requires offset != 0
    ensures pages == PageWindow(start, total, offset)
  {
    var rangeMax := Min(FloorDiv(total, offset), start + 3);
    var forward := CollectForward(start, rangeMax);
    assert forward == ForwardPages(start, total, offset);
    var avail := 3 - |forward|;
    var back: seq<int> := [];
    if avail != 0 {
      back := CollectBack(start, avail);
    }
    assert back == BackPages(start, total, offset);
    pages := back + forward;
  }

  /** The loop that turns pages into buttons. */
  method BuildPageButtons(pages: seq<int>) returns (row: seq<Button>)
    ensures row == PageButtons(pages)
  {
    row := [];
    for k := 0 to |pages|
      invariant row == PageButtons(pages[..k])
    {
      assert pages[..k + 1] == pages[..k] + [pages[k]];
      row := row + [Button(IntToString(pages[k] + 1), NavToken(pages[k]))];
    }
    assert pages[..|pages|] == pages;
  }

  /** The keyboard part of `SelectInput.menu`, once `start` is known. */
  method SelectKeyboard(choices: seq<Choice>, multiple: bool, held: Value, start: int, offset: int)
    returns (kbd: Option<Keyboard>)
    requires offset != 0
    ensures kbd == SelectGrid(choices, multiple, held, start, offset)
  {
    var realStart := start * offset;
    var page := PySlice(choices, realStart, realStart + offset);
    var rows := BuildChoiceRows(page, multiple, held);
    if rows.None? {
      return None;
    }
    var row := BuildPageRow(start, |choices|, offset);
    kbd := Some(rows.value + [row, OkCancelRow]);
  }

  /** The navigation row of `SelectInput.menu`: back arrow, numbered pages, forward arrow. */
  method BuildPageRow(start: int, total: nat, offset: int) returns (row: seq<Button>)
    requires offset != 0
    ensures row == PageRow(start, total, offset)
  {
    var back: seq<Button> := [];
    if start > 0 {
      back := [Button("⏪", NavToken(start - 1))];
    }
    var pages := BuildPageWindow(start, total, offset);
    var numbered := BuildPageButtons(pages);
    var allPages := FloorDiv(total, offset);
    var rest := FloorMod(total, offset);
    var forward: seq<Button> := [];
    if start > allPages {
    } else if start == allPages && rest != 0 {
    } else {
      forward := [Button("⏩", NavToken(start + 1))];
    }
    row := back + numbered + forward;
  }

  // ---------------------------------------------------------------------
  // The widget
  // ---------------------------------------------------------------------

  /** A Python list, shared by reference. */
  class PyList {
    var items: seq<Value>

    constructor (items: seq<Value>)
      ensures this.items == items
    {
      this.items := items;
    }

    /** `list.append(x)`. */
    method Append(x: Value)
      modifies this
      ensures items == old(items) + [x]
    {
      items := items + [x];
    }
  }

  /**
   * `self.selected` / `self.initial`: a list object, or any other value. A list
   * always travels as its object, so a `NonList` never holds one.
   */
  datatype Selection = ListObject(list: PyList) | NonList(v: Value)

  predicate WellFormed(sel: Selection) {
    sel.NonList? ==> !sel.v.ListV?
  }

  function SelectionObjects(sel: Selection): set<object> {
    if sel.ListObject? then {sel.list} else {}
  }

  /** The Python value a selection stands for. */
  function View(sel: Selection): Value
    reads SelectionObjects(sel)
  {
    if sel.ListObject? then ListV(sel.list.items) else sel.v
  }

  class SelectInput {
    const name: string
    const choices: seq<Choice>
    const multiple: bool
    const offset: int
    var selected: Selection
    const initial: Selection
    /** The widget's scratch, where the page number `start` lives. */
    const store: Store

    /** A multiple select works on one selection object, which `initial` names too. */
    predicate Valid()
      reads this
    {
      && WellFormed(selected) && WellFormed(initial)
      && (multiple ==> initial == selected)
    }

    /**
     * `SelectInput.__init__`. `given` is the `selected` keyword, kept whatever
     * `multiple` says; a list is the caller's own object. Without it a multiple
     * select starts from a fresh empty list and a single select from None.
     */
    constructor (name: string, choices: seq<Choice>, multiple: bool, offset: int, given: Option<Selection>, store: Store)
      requires given.Some? ==> WellFormed(given.value)
      ensures Valid()
      ensures this.name == name && this.choices == choices && this.multiple == multiple
      ensures this.offset == offset && this.store == store
      ensures given.Some? ==> selected == given.value
      ensures given.None? && multiple ==> selected.ListObject? && fresh(selected.list) && selected.list.items == []
      ensures given.None? && !multiple ==> selected == NonList(NoneV)
      ensures initial == selected
    {
      this.name := name;
      this.choices := choices;
      this.multiple := multiple;
      this.offset := offset;
      this.store := store;
      var sel: Selection;
      if given.Some? {
        sel := given.value;
      } else if multiple {
        var list := new PyList([]);
        sel := ListObject(list);
      } else {
        sel := NonList(NoneV);
      }
      this.selected := sel;
      this.initial := sel;
    }

    function Selected(): Value
      reads this, SelectionObjects(selected)
    {
      View(selected)
    }

    function Initial(): Value
      reads this, SelectionObjects(initial)
    {
      View(initial)
    }

    /**
     * `SelectInput.menu`: reads (and, when missing, stores 0 as) the page
     * `start`. A non-integer page, a zero offset or a choice row that raises
     * makes it fail with None.
     */
    method Menu() returns (r: Option<InputResponse>)
      requires Valid()
      modifies store
      ensures store.run == old(store.run)["start" := old(store.Get("start", IntV(0)))]
      ensures store.error == old(store.error) && store.hook == old(store.hook)
      ensures var start := old(store.Get("start", IntV(0)));
        && (r.Some? <==> start.IntV? && offset != 0 && SelectGrid(choices, multiple, Selected(), start.i, offset).Some?)
        && (r.Some? ==> r.value == InputResponse(Continue,
              Some(MenuResponse("Please select a " + name,
                                SelectGrid(choices, multiple, Selected(), start.i, offset))), NoneV))
    {
      var message := "Please select a " + name;
      var start := store.GetInsert("start", IntV(0));
      if !start.IntV? || offset == 0 {
        return None;
      }
      var kbd := SelectKeyboard(choices, multiple, Selected(), start.i, offset);
      if kbd.None? {
        return None;
      }
      r := Some(InputResponse(Continue, Some(MenuResponse(message, kbd)), NoneV));
    }

    /**
     * `SelectInput.next`: `nav::n` turns to page n, `value::v` picks v, `ok::…`
     * hands back the selection, `cancel::…` hands back `initial`; other actions
     * change nothing. A token that is not exactly two parts, a page that is not
     * a number, or a pick on a multiple select without a list gives None.
     */
    method Next(text: string) returns (r: Option<InputResponse>)
      requires Valid()
      modifies this, store, if multiple then SelectionObjects(selected) else {}
      ensures Valid() && (multiple ==> selected == old(selected))
      ensures multiple ==> Initial() == Selected()
      ensures store.error == old(store.error) && store.hook == old(store.hook)
      ensures |Split(text)| != 2 ==> r == None && store.run == old(store.run) && Selected() == old(Selected())
      ensures |Split(text)| == 2 ==>
        var action := Lower(Split(text)[0]);
        var value := Split(text)[1];
        && (action == "nav" && ParseInt(value).None? ==>
              r == None && store.run == old(store.run) && Selected() == old(Selected()))
        && (action == "nav" && ParseInt(value).Some? ==>
              && r == Some(InputResponse(Continue, None, NoneV))
              && store.run == old(store.run)["start" := IntV(ParseInt(value).value)]
              && Selected() == old(Selected()))
        && (action == "value" ==>
              var picked := Picked(multiple, old(Selected()), value);
              && store.run == old(store.run)
              && (picked.None? ==> r == None && Selected() == old(Selected()))
              && (picked.Some? ==> r == Some(InputResponse(Continue, None, NoneV)) && Selected() == picked.value))
        && (action == "ok" ==>
              r == Some(InputResponse(Stop, None, old(Selected())))
              && store.run == old(store.run) && Selected() == old(Selected()))
        && (action == "cancel" ==>
              r == Some(InputResponse(Stop, None, old(Initial())))
              && store.run == old(store.run) && Selected() == old(Selected()))
        && (action !in {"nav", "value", "ok", "cancel"} ==>
              r == Some(InputResponse(Continue, None, NoneV))
              && store.run == old(store.run) && Selected() == old(Selected()))
    {
      var parts := Split(text);
      if |parts| != 2 {
        return None;
      }
      var action, value := Lower(parts[0]), parts[1];
      if action == "nav" {
        var n := ParseInt(value);
        if n.None? {
          return None;
        }
        store.Set("start", IntV(n.value));
      } else if action == "value" {
        if multiple {
          if !selected.ListObject? {
            return None;
          }
          selected.list.Append(StrV(value));
        } else {
          selected := NonList(StrV(value));
        }
      } else if action == "ok" {
        return Some(InputResponse(Stop, None, Selected()));
      } else if action == "cancel" {
        return Some(InputResponse(Stop, None, Initial()));
      }
      r := Some(InputResponse(Continue, None, NoneV));
    }
  }

  /**
   * In a multiple select started without a selection, cancelling after picking
   * `v` hands back `[v]`, not the empty initial list: `initial` is the list the
   * pick was appended to.
   */
  method CancelKeepsPicks(v: string, choices: seq<Choice>) returns (r: Option<InputResponse>)
    requires ':' !in v
    ensures r == Some(InputResponse(Stop, None, ListV([StrV(v)])))
  {
    var store := new Store();
    var w := new SelectInput("item", choices, true, 10, None, store);
    var pick := "value" + "::" + v;
    SplitTwo("value", v);
    assert Lower("value") == "value";
    assert w.Selected() == ListV([]);
    var _ := w.Next(pick);
    assert w.Selected() == ListV([StrV(v)]);
    assert w.Initial() == ListV([StrV(v)]);
    var cancel := "cancel" + "::" + v;
    SplitTwo("cancel", v);
    assert Lower("cancel") == "cancel";
    r := w.Next(cancel);
  }

  /**
   * A multiple select given `selected=None` fails a pick: None has no `append`,
   * and the selection stays None.
   */
  method MultipleGivenNoneFailsPick(v: string, choices: seq<Choice>) returns (r: Option<InputResponse>, after: Value)
    requires ':' !in v
    ensures r == None && after == NoneV
  {
    var store := new Store();
    var w := new SelectInput("item", choices, true, 10, Some(NonList(NoneV)), store);
    var pick := "value" + "::" + v;
    SplitTwo("value", v);
    assert Lower("value") == "value";
    r := w.Next(pick);
    after := w.Selected();
  }

  /**
   * A single select given a list keeps that list as `initial`: after a pick,
   * cancelling hands back the list and not the picked value.
   */
  method SingleGivenListCancelsToList(v: string, items: seq<Value>, choices: seq<Choice>)
    returns (r: Option<InputResponse>)
    requires ':' !in v
    ensures r == Some(InputResponse(Stop, None, ListV(items)))
  {
    var store := new Store();
    var list := new PyList(items);
    var w := new SelectInput("item", choices, false, 10, Some(ListObject(list)), store);
    var pick := "value" + "::" + v;
    SplitTwo("value", v);
    assert Lower("value") == "value";
    var _ := w.Next(pick);
    assert w.Selected() == StrV(v);
    var cancel := "cancel" + "::" + v;
    SplitTwo("cancel", v);
    assert Lower("cancel") == "cancel";
    r := w.Next(cancel);
  }
}
