/**
 * The two date pickers of `inputs/datetime.py`: `DateInput`, a three-stage
 * year -> month -> day prompt, and `CalendarInput`, a month grid with
 * previous/next-month navigation driven by `ACTION::y::m::d` callback tokens.
 */
module DateInputs {
  import opened Wrappers
  import opened Text
  import opened Protocol
  import opened Scratch
  import opened Gregorian

  // ---------------------------------------------------------------------
  // DateInput
  // ---------------------------------------------------------------------

  /** The text `add_error_to_msg` appends: the placeholder is never filled in. */
  const ErrorPlaceholder: string := "\n\nError: {}"

  /** `add_error_to_msg`: append the unformatted error line when an error is set. */
  function AddErrorToMsg(message: string, error: Option<string>): (r: string)
    ensures error.Some? && error.value != "" ==> r == message + ErrorPlaceholder
    ensures !(error.Some? && error.value != "") ==> r == message
  {
    if error.Some? && error.value != "" then message + ErrorPlaceholder else message
  }

  /** The error text itself never reaches the message: any two set errors give the same text. */
  lemma AddErrorToMsgIgnoresText(message: string, e1: string, e2: string)
    requires e1 != "" && e2 != ""
    ensures AddErrorToMsg(message, Some(e1)) == AddErrorToMsg(message, Some(e2))
  {
  }

  /** The error line with the stored error filled into the placeholder. */
  function AddErrorToMsgFixed(message: string, error: Option<string>): string {
    if error.Some? && error.value != "" then message + "\n\nError: " + error.value else message
  }

  /** Filled in, the message names the error: distinct errors give distinct messages, and no error leaves it alone. */
  lemma AddErrorToMsgFixedShowsError(message: string, e1: string, e2: string)
    requires e1 != "" && e2 != ""
    ensures AddErrorToMsgFixed(message, Some(e1)) == AddErrorToMsgFixed(message, Some(e2)) <==> e1 == e2
    ensures AddErrorToMsgFixed(message, None) == message
  {
    var p := message + "\n\nError: ";
    assert AddErrorToMsgFixed(message, Some(e1)) == p + e1;
    assert AddErrorToMsgFixed(message, Some(e2)) == p + e2;
    if p + e1 == p + e2 {
      assert (p + e1)[|p|..] == e1;
      assert (p + e2)[|p|..] == e2;
    }
  }

  const ClearButton: Button := Button("Clear", "clear")
  const OkButton: Button := Button("OK", "ok")

  /** A number button: the caption pads one-digit numbers with a 0, the token is the plain number. */
  function NumberButton(n: int): Button {
    Button(if 0 <= n < 10 then "0" + IntToString(n) else IntToString(n), IntToString(n))
  }

  /** The number buttons `lo .. hi - 1` in rows of three, the last row possibly shorter. */
  function NumberRows(lo: int, hi: int): (rows: Keyboard)
    decreases hi - lo
  {
    if hi <= lo then []
    else if hi - lo <= 3 then [seq(hi - lo, k => NumberButton(lo + k))]
    else [seq(3, k => NumberButton(lo + k))] + NumberRows(lo + 3, hi)
  }

  function Flatten(rows: Keyboard): seq<Button> {
    if rows == [] then [] else rows[0] + Flatten(rows[1..])
  }

  lemma FlattenAppend(a: Keyboard, b: Keyboard)
    ensures Flatten(a + b) == Flatten(a) + Flatten(b)
  {
    if a != [] {
      assert (a + b)[0] == a[0];
      assert (a + b)[1..] == a[1..] + b;
      FlattenAppend(a[1..], b);
    } else {
      assert a + b == b;
    }
  }

  /** Read row by row, the number buttons are exactly `lo .. hi - 1` in order, at most three to a row. */
  lemma {:induction false} NumberRowsInOrder(lo: int, hi: int)
    requires lo <= hi
    ensures Flatten(NumberRows(lo, hi)) == seq(hi - lo, k => NumberButton(lo + k))
    ensures forall i :: 0 <= i < |NumberRows(lo, hi)| ==> 1 <= |NumberRows(lo, hi)[i]| <= 3
    decreases hi - lo
  {
    if hi - lo > 3 {
      NumberRowsInOrder(lo + 3, hi);
      var rows := NumberRows(lo, hi);
      assert rows[1..] == NumberRows(lo + 3, hi);
    } else if hi > lo {
      var rows := NumberRows(lo, hi);
      assert rows[1..] == [];
    }
  }

  /** Which part the widget asks for: the first of year, month, day that is falsy. */
  datatype DatePart = YearPart | MonthPart | DayPart

  /** The numbers offered for a part: years 2015 to 2023, months 1 to 12, days 1 to 31. */
  function Offered(p: DatePart): (int, int) {
    match p
    case YearPart => (2015, 2024)
    case MonthPart => (1, 13)
    case DayPart => (1, 32)
  }

  /** The keyboard prompting for a part; month and day add a Clear row. */
  function PromptRows(p: DatePart): Keyboard {
    var (lo, hi) := Offered(p);
    if p == YearPart then NumberRows(lo, hi) else NumberRows(lo, hi) + [[ClearButton]]
  }

  function PartKey(p: DatePart): string {
    match p
    case YearPart => "year"
    case MonthPart => "month"
    case DayPart => "day"
  }

  function Pending(year: Value, month: Value, day: Value): Option<DatePart> {
    if !Truthy(year) then Some(YearPart)
    else if !Truthy(month) then Some(MonthPart)
    else if !Truthy(day) then Some(DayPart)
    else None
  }

  /**
   * `DateInput.menu` on the staged year, month and day and the error slot: always
   * CONTINUE; the prompt and keyboard of the first missing part, or the filled-in
   * date with Clear and OK.
   */
  function DateMenu(name: string, year: Value, month: Value, day: Value, error: Option<string>): (r: InputResponse)
    ensures r.status == Continue && r.value == NoneV && r.menu.Some? && r.menu.value.keyboard.Some?
    ensures Pending(year, month, day) == Some(YearPart) ==>
      r.menu.value == MenuResponse(AddErrorToMsg("Please select the year:", error), Some(PromptRows(YearPart)))
    ensures Pending(year, month, day) == Some(MonthPart) ==>
      r.menu.value == MenuResponse(AddErrorToMsg(name + ": --/--/" + Show(year) + "\n\nPlease select the month:", error),
                                   Some(PromptRows(MonthPart)))
    ensures Pending(year, month, day) == Some(DayPart) ==>
      r.menu.value == MenuResponse(AddErrorToMsg(name + ": --/" + Show(month) + "/" + Show(year) + "\n\nPlease select the day:", error),
                                   Some(PromptRows(DayPart)))
    ensures Pending(year, month, day) == None ==>
      r.menu.value == MenuResponse(AddErrorToMsg(name + ": " + Show(day) + "/" + Show(month) + "/" + Show(year), error),
                                   Some([[ClearButton], [OkButton]]))
  {
    if !Truthy(year) then
      InputResponse(Continue, Some(MenuResponse(AddErrorToMsg("Please select the year:", error), Some(PromptRows(YearPart)))), NoneV)
    else
      var header := name + ": --/--/" + Show(year);
      if !Truthy(month) then
        InputResponse(Continue, Some(MenuResponse(AddErrorToMsg(header + "\n\nPlease select the month:", error), Some(PromptRows(MonthPart)))), NoneV)
      else
        var header := name + ": --/" + Show(month) + "/" + Show(year);
        if !Truthy(day) then
          InputResponse(Continue, Some(MenuResponse(AddErrorToMsg(header + "\n\nPlease select the day:", error), Some(PromptRows(DayPart)))), NoneV)
        else
          var header := name + ": " + Show(day) + "/" + Show(month) + "/" + Show(year);
          InputResponse(Continue, Some(MenuResponse(AddErrorToMsg(header, error), Some([[ClearButton], [OkButton]]))), NoneV)
  }

  /** Truthy parts form a prefix of year, month, day: the order in which `next` fills them. */
  predicate Ordered(run: map<string, Value>) {
    var year := Lookup(run, "year", NoneV);
    var month := Lookup(run, "month", NoneV);
    var day := Lookup(run, "day", NoneV);
    (Truthy(day) ==> Truthy(month)) && (Truthy(month) ==> Truthy(year))
  }

  function PendingIn(run: map<string, Value>): Option<DatePart> {
    Pending(Lookup(run, "year", NoneV), Lookup(run, "month", NoneV), Lookup(run, "day", NoneV))
  }

  /**
   * Filling the pending part with a non-zero number keeps the parts in order and
   * moves the prompt exactly one part on (to the confirmation after the day);
   * filling it with 0 leaves the prompt where it was.
   */
  lemma FillAdvances(run: map<string, Value>, n: int)
    requires Ordered(run) && PendingIn(run).Some?
    ensures var p := PendingIn(run).value;
      var run' := run[PartKey(p) := IntV(n)];
      && Ordered(run')
      && (n == 0 ==> PendingIn(run') == PendingIn(run))
      && (n != 0 && p == YearPart ==> PendingIn(run') == Some(MonthPart))
      && (n != 0 && p == MonthPart ==> PendingIn(run') == Some(DayPart))
      && (n != 0 && p == DayPart ==> PendingIn(run') == None)
  {
  }

  /** Clearing puts the prompt back at the year. */
  lemma ClearRestarts(run: map<string, Value>)
    ensures var run' := run["year" := NoneV]["month" := NoneV]["day" := NoneV];
      Ordered(run') && PendingIn(run') == Some(YearPart)
  {
  }

  /** A run of digits reads as neither "ok" nor "clear", whatever the case. */
  lemma DigitsAreNoCommand(t: string)
    requires |t| > 0 && IsDigit(t[|t| - 1])
    ensures Lower(t) != "ok" && Lower(t) != "clear"
  {
    assert Lower(t)[|t| - 1] == LowerChar(t[|t| - 1]);
  }

  /** The token of a number button reads back as its number and is no command. */
  lemma NumberButtonParses(n: int)
    ensures ParseInt(NumberButton(n).data) == Some(n)
    ensures Lower(NumberButton(n).data) != "ok" && Lower(NumberButton(n).data) != "clear"
  {
    ParseIntToString(n);
    DigitsAreNoCommand(IntToString(n));
  }

  lemma NumberRowsParse(lo: int, hi: int, b: Button)
    requires lo <= hi && b in Flatten(NumberRows(lo, hi))
    ensures exists n :: lo <= n < hi && b == NumberButton(n) && ParseInt(b.data) == Some(n)
    ensures Lower(b.data) != "ok" && Lower(b.data) != "clear"
  {
    NumberRowsInOrder(lo, hi);
    var buttons := Flatten(NumberRows(lo, hi));
    var k :| 0 <= k < |buttons| && buttons[k] == b;
    assert b == NumberButton(lo + k);
    NumberButtonParses(lo + k);
  }

  /**
   * Every button of a prompt other than Clear carries the decimal form of one of
   * the offered numbers, which `int()` reads back and which is neither "ok" nor
   * "clear" in any case.
   */
  lemma PromptButtonsParse(p: DatePart, b: Button)
    requires b in Flatten(PromptRows(p)) && b != ClearButton
    ensures exists n :: Offered(p).0 <= n < Offered(p).1 && b == NumberButton(n) && ParseInt(b.data) == Some(n)
    ensures Lower(b.data) != "ok" && Lower(b.data) != "clear"
  {
    var (lo, hi) := Offered(p);
    if p != YearPart {
      FlattenAppend(NumberRows(lo, hi), [[ClearButton]]);
      assert Flatten([[ClearButton]]) == [ClearButton];
    }
    NumberRowsParse(lo, hi, b);
  }

  /**
   * The menu and `next` agree on the part being asked for: the menu shows the
   * prompt of exactly the part `next` fills.
   */
  lemma MenuPromptsPending(run: map<string, Value>, name: string, error: Option<string>)
    requires PendingIn(run).Some?
    ensures DateMenu(name, Lookup(run, "year", NoneV), Lookup(run, "month", NoneV), Lookup(run, "day", NoneV), error)
      .menu.value.keyboard == Some(PromptRows(PendingIn(run).value))
  {
  }

  /**
   * `DateInput.next`. "ok" (any case) hands back the staged parts; "clear" resets
   * them; any other text is parsed into the first falsy part, or recorded as an
   * error; once all parts are set such a text gives None.
   */
  method DateNext(s: Store, text: string) returns (r: Option<InputResponse>)
    modifies s
    ensures s.hook == old(s.hook)
    ensures Lower(text) == "ok" ==>
      && r == Some(InputResponse(Stop, None, DateV(old(s.Get("year", NoneV)), old(s.Get("month", NoneV)), old(s.Get("day", NoneV)))))
      && s.run == old(s.run) && s.error == old(s.error)
    ensures Lower(text) == "clear" ==>
      && r == Some(InputResponse(Continue, None, NoneV))
      && s.run == old(s.run)["year" := NoneV]["month" := NoneV]["day" := NoneV] && s.error == old(s.error)
    ensures Lower(text) != "ok" && Lower(text) != "clear" ==>
      match old(PendingIn(s.run))
      case None => r == None && s.run == old(s.run) && s.error == old(s.error)
      case Some(p) =>
        && r == Some(InputResponse(Continue, None, NoneV))
        && (ParseInt(text).Some? ==> s.run == old(s.run)[PartKey(p) := IntV(ParseInt(text).value)] && s.error == old(s.error))
        && (ParseInt(text).None? ==> s.run == old(s.run) && s.error == Some("Please enter a valid " + PartKey(p)))
    ensures old(Ordered(s.run)) ==> Ordered(s.run)
  {
    var year := s.Get("year", NoneV);
    var month := s.Get("month", NoneV);
    var day := s.Get("day", NoneV);
    var t := Lower(text);
    if t == "ok" {
      return Some(InputResponse(Stop, None, DateV(year, month, day)));
    }
    if t == "clear" {
      s.Set("year", NoneV);
      s.Set("month", NoneV);
      s.Set("day", NoneV);
      return Some(InputResponse(Continue, None, NoneV));
    }
    var pending := Pending(year, month, day);
    if pending.None? {
      return None;
    }
    var key := PartKey(pending.value);
    match ParseInt(text) {
      case Some(n) =>
        if Ordered(s.run) {
          FillAdvances(s.run, n);
        }
        s.Set(key, IntV(n));
      case None =>
        s.SetError("Please enter a valid " + key);
    }
    r := Some(InputResponse(Continue, None, NoneV));
  }

  // ---------------------------------------------------------------------
  // CalendarInput
  // ---------------------------------------------------------------------

  /** The fields of `datetime.now()` the calendar reads. */
  datatype Now = Now(year: int, month: int)

  /** `calendar.month_name` in the default English locale. */
  function MonthName(m: int): string
    requires 1 <= m <= 12
  {
    ["January", "February", "March", "April", "May", "June", "July",
     "August", "September", "October", "November", "December"][m - 1]
  }

  /** `create_callback_data(action, year, month, day)`. */
  function CreateCallbackData(action: string, year: int, month: int, day: int): string {
    action + "::" + IntToString(year) + "::" + IntToString(month) + "::" + IntToString(day)
  }

  /** The token of the title and of the blank cells: `"IGNORE::{year}::{month}::0"`. */
  function IgnoreData(year: int, month: int): string {
    CreateCallbackData("IGNORE", year, month, 0)
  }

  /** The token of every weekday-name button, with the letters y, m, d left in. */
  const WeekdayToken: string := "IGNORE::y::m::d"

  function WeekdayRow(): seq<Button> {
    seq(7, k requires 0 <= k < 7 => Button(["Mo", "Tu", "We", "Th", "Fr", "Sa", "Su"][k], WeekdayToken))
  }

  /** One cell of the grid: a blank for 0, otherwise the day number with its DAY token. */
  function DayButton(year: int, month: int, day: int): Button {
    if day == 0 then Button(" ", IgnoreData(year, month))
    else Button(IntToString(day), CreateCallbackData("DAY", year, month, day))
  }

  function DayButtons(year: int, month: int, week: seq<int>): seq<Button> {
    seq(|week|, k requires 0 <= k < |week| => DayButton(year, month, week[k]))
  }

  function WeekRows(year: int, month: int, weeks: seq<seq<int>>): Keyboard {
    seq(|weeks|, i requires 0 <= i < |weeks| => DayButtons(year, month, weeks[i]))
  }

  /** The last row: "<" unless the shown month is the current month (of any year), a blank, then ">". */
  function NavRow(year: int, month: int, now: Now): seq<Button> {
    var back := if month == now.month then Button(" ", IgnoreData(year, month))
                else Button("<", CreateCallbackData("PREV-MONTH", year, month, 0));
    [back, Button(" ", IgnoreData(year, month)), Button(">", CreateCallbackData("NEXT-MONTH", year, month, 0))]
  }

  /** The title row (month name and year) and the weekday-name row. */
  function CalendarHeader(year: int, month: int): Keyboard
    requires 1 <= month <= 12
  {
    [[Button(MonthName(month) + " " + IntToString(year), IgnoreData(year, month))], WeekdayRow()]
  }

  /** The keyboard of `CalendarInput.menu`: title, weekday names, the weeks of the month, navigation. */
  function CalendarGrid(year: int, month: int, now: Now): Keyboard
    requires 1 <= month <= 12
  {
    CalendarHeader(year, month)
    + WeekRows(year, month, MonthCalendar(year, month))
    + [NavRow(year, month, now)]
  }

  /** The inner loop of `CalendarInput.menu`: the buttons of one week, cell by cell. */
  method WeekButtons(year: int, month: int, week: seq<int>) returns (row: seq<Button>)
    ensures row == DayButtons(year, month, week)
  {
    row := [];
    for j := 0 to |week|
      invariant row == DayButtons(year, month, week[..j])
    {
      var cell;
      if week[j] == 0 {
        cell := Button(" ", IgnoreData(year, month));
      } else {
        cell := Button(IntToString(week[j]), CreateCallbackData("DAY", year, month, week[j]));
      }
      assert week[..j + 1] == week[..j] + [week[j]];
      row := row + [cell];
    }
    assert week[..|week|] == week;
  }

  /** The outer loop of `CalendarInput.menu`: one row of buttons per week. */
  method BuildWeekRows(year: int, month: int, weeks: seq<seq<int>>) returns (rows: Keyboard)
    ensures rows == WeekRows(year, month, weeks)
  {
    rows := [];
    for i := 0 to |weeks|
      invariant rows == WeekRows(year, month, weeks[..i])
    {
      var row := WeekButtons(year, month, weeks[i]);
      assert weeks[..i + 1] == weeks[..i] + [weeks[i]];
      assert WeekRows(year, month, weeks[..i + 1]) == WeekRows(year, month, weeks[..i]) + [row];
      rows := rows + [row];
    }
    assert weeks[..|weeks|] == weeks;
  }

  /** The last row of `CalendarInput.menu`, button by button. */
  method BuildNavRow(year: int, month: int, now: Now) returns (last: seq<Button>)
    ensures last == NavRow(year, month, now)
  {
    var dataIgnore := IgnoreData(year, month);
    last := [];
    if month == now.month {
      last := last + [Button(" ", dataIgnore)];
    } else {
      last := last + [Button("<", CreateCallbackData("PREV-MONTH", year, month, 0))];
    }
    last := last + [Button(" ", dataIgnore)];
    last := last + [Button(">", CreateCallbackData("NEXT-MONTH", year, month, 0))];
  }

  /** The loops of `CalendarInput.menu` that build the keyboard row by row. */
  method CalendarKeyboard(year: int, month: int, now: Now) returns (kbd: Keyboard)
    requires 1 <= month <= 12
    ensures kbd == CalendarGrid(year, month, now)
  {
    var rows := BuildWeekRows(year, month, MonthCalendar(year, month));
    var last := BuildNavRow(year, month, now);
    kbd := CalendarHeader(year, month) + rows + [last];
  }

  /**
   * `CalendarInput.menu`. A missing month or year (`is None`) is taken from
   * `now`; a month outside 1..12 or a non-integer part makes the grid fail,
   * and the exception gives None.
   */
  method CalendarMenu(s: Store, name: string, now: Now) returns (r: Option<InputResponse>)
    ensures var month := s.Get("month", NoneV);
      var year := s.Get("year", NoneV);
      var m := if month == NoneV then IntV(now.month) else month;
      var y := if year == NoneV then IntV(now.year) else year;
      && (r.Some? <==> m.IntV? && y.IntV? && 1 <= m.i <= 12)
      && (r.Some? ==> r.value == InputResponse(Continue, Some(MenuResponse(name, Some(CalendarGrid(y.i, m.i, now)))), NoneV))
  {
    var month := s.Get("month", NoneV);
    var year := s.Get("year", NoneV);
    if year == NoneV {
      year := IntV(now.year);
    }
    if month == NoneV {
      month := IntV(now.month);
    }
    if !month.IntV? || !year.IntV? || !(1 <= month.i <= 12) {
      return None;
    }
    var kbd := CalendarKeyboard(year.i, month.i, now);
    r := Some(InputResponse(Continue, Some(MenuResponse(name, Some(kbd))), NoneV));
  }

  /** What a calendar token does. */
  datatype CalendarEffect =
    | CalendarFails                              // an exception: `next` gives None
    | CalendarStays                              // CONTINUE, nothing staged
    | CalendarPicks(year: int, month: int, day: int)  // STOP with the date
    | CalendarMoves(year: int, month: int)       // CONTINUE, the shown month changes

  /**
   * The meaning of a token, as `CalendarInput.next` decides it: exactly four
   * parts; year and month must make `datetime(year, month, 1)`; the moves must
   * stay inside years 1..9999.
   */
  function EffectOf(text: string): CalendarEffect {
    var parts := Split(text);
    if |parts| != 4 then CalendarFails
    else
      var y := ParseInt(parts[1]);
      var m := ParseInt(parts[2]);
      if y.None? || m.None? then CalendarFails
      else if !(1 <= y.value <= 9999 && 1 <= m.value <= 12) then CalendarFails
      else
        var first := Date(y.value, m.value, 1);
        var action := parts[0];
        if action == "IGNORE" then CalendarStays
        else if action == "DAY" then
          (match ParseInt(parts[3])
           case Some(d) => CalendarPicks(y.value, m.value, d)
           case None => CalendarFails)
        else if action == "PREV-MONTH" then
          var pre := PreviousDay(first);
          if pre.year < 1 then CalendarFails else CalendarMoves(pre.year, pre.month)
        else if action == "NEXT-MONTH" then
          var ne := AddDays(first, 31);
          if ne.year > 9999 then CalendarFails else CalendarMoves(ne.year, ne.month)
        else CalendarStays
  }

  /** `CalendarInput.next`. */
  method CalendarNext(s: Store, text: string) returns (r: Option<InputResponse>)
    modifies s
    ensures s.error == old(s.error) && s.hook == old(s.hook)
    ensures match EffectOf(text)
      case CalendarFails => r == None && s.run == old(s.run)
      case CalendarStays => r == Some(InputResponse(Continue, None, NoneV)) && s.run == old(s.run)
      case CalendarPicks(y, m, d) =>
        r == Some(InputResponse(Stop, None, DateV(IntV(y), IntV(m), IntV(d)))) && s.run == old(s.run)
      case CalendarMoves(y, m) =>
        r == Some(InputResponse(Continue, None, NoneV)) && s.run == old(s.run)["month" := IntV(m)]["year" := IntV(y)]
  {
    var parts := Split(text);
    if |parts| != 4 {
      return None;
    }
    var action, year, month, day := parts[0], parts[1], parts[2], parts[3];
    var y := ParseInt(year);
    var m := ParseInt(month);
    if y.None? || m.None? || !(1 <= y.value <= 9999 && 1 <= m.value <= 12) {
      return None;
    }
    var curr := Date(y.value, m.value, 1);
    if action == "IGNORE" {
    } else if action == "DAY" {
      var d := ParseInt(day);
      if d.None? {
        return None;
      }
      return Some(InputResponse(Stop, None, DateV(IntV(y.value), IntV(m.value), IntV(d.value))));
    } else if action == "PREV-MONTH" {
      var pre := PreviousDay(curr);
      if pre.year < 1 {
        return None;
      }
      s.Set("month", IntV(pre.month));
      s.Set("year", IntV(pre.year));
    } else if action == "NEXT-MONTH" {
      var ne := AddDays(curr, 31);
      if ne.year > 9999 {
        return None;
      }
      s.Set("month", IntV(ne.month));
      s.Set("year", IntV(ne.year));
    }
    r := Some(InputResponse(Continue, None, NoneV));
  }

  /** A callback token splits back into its action and the decimal forms of its three numbers. */
  lemma CallbackDataSplits(action: string, year: int, month: int, day: int)
    requires ':' !in action
    ensures Split(CreateCallbackData(action, year, month, day)) ==
      [action, IntToString(year), IntToString(month), IntToString(day)]
  {
    IntToStringNoColon(year);
    IntToStringNoColon(month);
    IntToStringNoColon(day);
    SplitFour(action, IntToString(year), IntToString(month), IntToString(day));
  }

  lemma CallbackDataDecodes(action: string, year: int, month: int, day: int)
    requires ':' !in action
    ensures var parts := Split(CreateCallbackData(action, year, month, day));
      |parts| == 4 && parts[0] == action &&
      ParseInt(parts[1]) == Some(year) && ParseInt(parts[2]) == Some(month) && ParseInt(parts[3]) == Some(day)
  {
    CallbackDataSplits(action, year, month, day);
    ParseIntToString(year);
    ParseIntToString(month);
    ParseIntToString(day);
  }

  /** A DAY token of a `datetime`-valid month is read back as that exact date. */
  lemma DayTokenRoundTrip(year: int, month: int, day: int)
    requires 1 <= year <= 9999 && 1 <= month <= 12
    ensures EffectOf(CreateCallbackData("DAY", year, month, day)) == CalendarPicks(year, month, day)
  {
    CallbackDataDecodes("DAY", year, month, day);
  }

  /** The blank and title token changes nothing. */
  lemma IgnoreTokenStays(year: int, month: int)
    requires 1 <= year <= 9999 && 1 <= month <= 12
    ensures EffectOf(IgnoreData(year, month)) == CalendarStays
  {
    CallbackDataDecodes("IGNORE", year, month, 0);
  }

  /** PREV-MONTH shows the preceding month, failing only before January of year 1. */
  lemma PrevMonthToken(year: int, month: int)
    requires 1 <= year <= 9999 && 1 <= month <= 12
    ensures var e := EffectOf(CreateCallbackData("PREV-MONTH", year, month, 0));
      && (year == 1 && month == 1 ==> e == CalendarFails)
      && (!(year == 1 && month == 1) ==> e == CalendarMoves(PrecedingMonth(year, month).0, PrecedingMonth(year, month).1))
  {
    CallbackDataDecodes("PREV-MONTH", year, month, 0);
    FirstMinusOne(year, month);
  }

  /** NEXT-MONTH shows the following month, never skipping one, failing only after December 9999. */
  lemma NextMonthToken(year: int, month: int)
    requires 1 <= year <= 9999 && 1 <= month <= 12
    ensures var e := EffectOf(CreateCallbackData("NEXT-MONTH", year, month, 0));
      && (year == 9999 && month == 12 ==> e == CalendarFails)
      && (!(year == 9999 && month == 12) ==> e == CalendarMoves(FollowingMonth(year, month).0, FollowingMonth(year, month).1))
  {
    CallbackDataDecodes("NEXT-MONTH", year, month, 0);
    FirstPlus31(year, month);
  }

  /** A four-part token whose year is not a number fails, whatever its action. */
  lemma NonNumericYearFails(action: string, year: string, month: string, day: string)
    requires ':' !in action && ':' !in year && ':' !in month && ':' !in day
    requires ParseInt(year) == None
    ensures EffectOf(action + "::" + year + "::" + month + "::" + day) == CalendarFails
  {
    SplitFour(action, year, month, day);
  }

  /** The weekday-name buttons carry letters where `int()` needs digits, so pressing one fails. */
  lemma WeekdayTokenFails()
    ensures EffectOf(WeekdayToken) == CalendarFails
  {
    assert "IGNORE" + "::" + "y" + "::" + "m" + "::" + "d" == WeekdayToken;
    assert ParseInt("y") == None by {
      assert StripLeft("y") == "y";
      assert StripRight("y") == "y";
    }
    NonNumericYearFails("IGNORE", "y", "m", "d");
  }

  /**
   * Every day of the month appears in the grid once, in the column of its
   * weekday, and pressing it picks exactly that date.
   */
  lemma CalendarGridDays(year: int, month: int, now: Now, day: int)
    requires 1 <= year <= 9999 && 1 <= month <= 12 && 1 <= day <= DaysInMonth(year, month)
    ensures var k := Weekday(Date(year, month, 1)) + day - 1;
      var grid := CalendarGrid(year, month, now);
      && 2 + k / 7 < |grid| - 1
      && k % 7 == Weekday(Date(year, month, day))
      && grid[2 + k / 7][k % 7] == Button(IntToString(day), CreateCallbackData("DAY", year, month, day))
      && EffectOf(CreateCallbackData("DAY", year, month, day)) == CalendarPicks(year, month, day)
  {
    GridHoldsDay(year, month, now, day);
    DayTokenRoundTrip(year, month, day);
  }

  /** The grid half of `CalendarGridDays`: where the button of a day sits. */
  lemma GridHoldsDay(year: int, month: int, now: Now, day: int)
    requires 1 <= month <= 12 && 1 <= day <= DaysInMonth(year, month)
    ensures var k := Weekday(Date(year, month, 1)) + day - 1;
      var grid := CalendarGrid(year, month, now);
      && 2 + k / 7 < |grid| - 1
      && k % 7 == Weekday(Date(year, month, day))
      && grid[2 + k / 7][k % 7] == Button(IntToString(day), CreateCallbackData("DAY", year, month, day))
  {
    MonthCalendarPlacesDays(year, month, day);
    var k := Weekday(Date(year, month, 1)) + day - 1;
    DayCell(year, month, now, k / 7, k % 7, day);
  }

  /** A non-blank cell of `monthcalendar` becomes that day's button. */
  lemma DayCell(year: int, month: int, now: Now, i: int, j: int, day: int)
    requires 1 <= month <= 12 && 0 <= i < |MonthCalendar(year, month)| && 0 <= j < 7
    requires MonthCalendar(year, month)[i][j] == day && day != 0
    ensures var grid := CalendarGrid(year, month, now);
      2 + i < |grid| - 1 && grid[2 + i][j] == Button(IntToString(day), CreateCallbackData("DAY", year, month, day))
  {
    GridCell(year, month, now, i, j);
  }

  /** Below the two header rows, cell `(i, j)` of the grid is the button of week `i`, day `j` of `monthcalendar`. */
  lemma GridCell(year: int, month: int, now: Now, i: int, j: int)
    requires 1 <= month <= 12 && 0 <= i < |MonthCalendar(year, month)| && 0 <= j < 7
    ensures var grid := CalendarGrid(year, month, now);
      2 + i < |grid| - 1 && grid[2 + i][j] == DayButton(year, month, MonthCalendar(year, month)[i][j])
  {
    var weeks := MonthCalendar(year, month);
    var rows := WeekRows(year, month, weeks);
    var grid := CalendarGrid(year, month, now);
    assert grid[2 + i] == rows[i];
  }

  /**
   * The navigation row: "<" exactly when the month differs from the current
   * month, whatever the year; ">" always, leading to the following month.
   */
  lemma CalendarGridNavigation(year: int, month: int, now: Now)
    requires 1 <= year <= 9999 && 1 <= month <= 12
    ensures var grid := CalendarGrid(year, month, now);
      var nav := grid[|grid| - 1];
      && |nav| == 3
      && (nav[0].caption == "<" <==> month != now.month)
      && (month == now.month ==> EffectOf(nav[0].data) == CalendarStays)
      && nav[2].caption == ">"
      && (!(year == 9999 && month == 12) ==>
            EffectOf(nav[2].data) == CalendarMoves(FollowingMonth(year, month).0, FollowingMonth(year, month).1))
  {
    IgnoreTokenStays(year, month);
    NextMonthToken(year, month);
  }
}
