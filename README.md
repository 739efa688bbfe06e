# ninagram dialogue engine: a Dafny model

ninagram builds Telegram bots out of *states*. A state answers every incoming event
with two calls:

- `next` reads the event and names the state to go to, with an optional step.
- `menu` renders the reply of the state the session has moved to.

A state may delegate a long-running conversation to an *input* widget. It installs the
widget as its *hook* and forwards its own `menu`/`next` to the widget until the widget
answers STOP or ABORT instead of CONTINUE. This project models the parts that hold the
engine together:

- **Dispatch** (`bot.py`, `generic_processor`): advances the session, records its state
  twice, and falls back to START when a render fails. Module `Dispatcher`, method
  `GenericProcessor` over a `Persistence.Session` object.
- **Access guards** (`auth.py`): the `(allowed, response)` pairs of the twelve guard
  classes, and the list/tuple check of the membership guards' constructors. Module `Auth`.
- **Field widgets**:
  - `fields/base.py`: label, current value, OK/Cancel keyboard and the `op::type::value`
    encoder. Module `FieldBase`.
  - `fields/char.py`: the `**ok**`/`**cancel**` protocol and length validation.
    Module `CharFields`.
  - `fields/numeric.py`: integer and boolean parsing. Module `NumericFields`.
- **Date, calendar and select inputs** (`inputs/datetime.py`):
  - the three-stage year/month/day prompt;
  - the month grid with `ACTION::y::m::d` tokens, built on a proleptic Gregorian calendar
    (module `Gregorian`);
  - the paginated select with its page window.

  Modules `DateInputs` and `SelectInputs`.
- **Forms** (`states/forms.py`): `BaseForm` walks the fields of a model through one hook
  per field, then shows a Save/Cancel summary. Module `Forms`.
- **CRUD screen** (`states/models.py`): home, add, list, detail and delete steps.
  Module `ModelStates`.
- **Persistence** (`models.py`):
  - chat get-or-create for groups, channels and users;
  - the session write;
  - the read-through session cache.

  Module `Persistence`. Each ORM table is a map from primary key to row.

**Shared modules**

- `Wrappers`: `Option`, `Result` and the Python exceptions the code can raise (`PyError`).
- `Text`: Python's `int()`, `str()`, `split("::")` and `lower()` on ASCII text.
- `Protocol`: the values widgets hand back (`Value`, with Python truthiness), the response
  objects (`MenuResponse`, `NextResponse`, `InputResponse`) and the event facts the guards
  read.
- `Scratch`: a state's scratch area. It holds the `run` dictionary, the error slot and
  the hook slot that `get_run`/`set_run`/`set_error`/`install_hook` use.

**Modelling choices**

- An exception that the source catches and logs (a widget's `try/except` around
  `menu`/`next`) becomes `None`.
- An exception that propagates becomes `Err` with the Python error.
- The installed hook's own `menu`/`next` answer is a parameter of the host state's method.
- The collaborators of `generic_processor` form a record of functions:
  - `get_state`;
  - the previous state's `next`;
  - `set_step`;
  - the new state's `menu`;
  - the `menu` of the fresh START object that a failed render falls back to. It is its own
    collaborator, because that object is not the one whose render failed.
- Methods that update objects in place are class methods with `modifies` clauses:
  `Store`, `SelectInput`, `BaseForm`, `ModelState`, `Db`, `TgUser`, `Session` and
  `Runtime`.
- Loops of the source are `while`/`for` loops proved equal to a specification function:
  - the summary and detail lines;
  - the calendar grid;
  - the choice rows and page window of the select.

## Model

| member | source | states |
|---|---|---|
| Auth.Next | ninagram/auth.py:23-38 | A guard's `next` allows exactly when its condition admits the event. Then the response is None. A refusal is the transition to "START" at step 1 with force_return 1. |
| Auth.Menu | ninagram/auth.py:40-55 | A guard's `menu` allows exactly when its condition admits the event; a refusal carries "Sorry! You are not authorized". ChatUsernameIn, and only it, raises NameError("uupdate") instead. |
| Auth.MenuIntended | ninagram/auth.py:319-323 | The menu check as evidently intended: it admits exactly what the guard's condition admits, for every class. |
| Auth.MenuNextAgree | ninagram/auth.py:63-76 | For one event, `menu` and `next` of every guard decide alike, except ChatUsernameIn's menu, which always raises. The intended menu agrees with `next` for all guards. |
| Auth.ChatTypeGuardsExclusive | ninagram/auth.py:118-216 | ChatIsPrivate/Group/Supergroup/Channel each admit exactly one chat type, and no two admit the same event. ChatIsAnyGroup is group or supergroup. |
| Auth.MembershipGuards | ninagram/auth.py:232-329 | UserIdIn, ChatIdIn, UserUsernameIn and ChatUsernameIn admit exactly when the event's id or username occurs in the configured sequence. |
| Auth.UserIdInRefusesStranger | ninagram/auth.py:232-242 | UserIdIn([42]) refuses user 7 in `next` (START transition) and in `menu` (error message). |
| Auth.NewUserIdIn | ninagram/auth.py:226-230 | Construction succeeds exactly for a list or tuple and keeps its elements; otherwise TypeError "user_ids must list or tuples". |
| Auth.NewUserUsernameIn | ninagram/auth.py:255-259 | Same shape, with TypeError "usernames must list or tuples". |
| Auth.NewChatIdIn | ninagram/auth.py:284-288 | Same shape, with the message that still names user_ids. |
| Auth.NewChatUsernameIn | ninagram/auth.py:313-317 | Same shape, with the message that still names user_ids. |
| Auth.ListAndTupleAgree | ninagram/auth.py:226-242 | A guard built from a list equals one built from the tuple of the same elements, and it admits exactly the listed user ids. |
| FieldBase.GetCurrentValue | ninagram/fields/base.py:40-49 | "Current value: " followed by the staged value when truthy, else the initial value when truthy, else nothing. |
| FieldBase.GetKeyboard | ninagram/fields/base.py:57-61 | One row of two buttons carrying `**ok**` then `**cancel**`. |
| FieldBase.Render | ninagram/fields/base.py:20-33 | `menu` is always CONTINUE with no value and the OK/Cancel keyboard. Its text is the label and the current value, plus the error only when one is set, separated by blank lines. |
| FieldBase.BaseNext | ninagram/fields/base.py:51-55 | The base `next` returns None for every text. |
| FieldBase.EncodeCbValue | ninagram/fields/base.py:63-88 | Produces a token exactly when the type is a string whose lower-case form is one of int/float/bool/string. The token is op, the lower-cased type and the value joined by "::". |
| FieldBase.EncodeCbValueSplits | ninagram/fields/base.py:63-86 | Splitting an encoded token on "::" gives back operator, type and value when neither operator nor value holds a colon. |
| FieldBase.EncodeCbValueCaseInsensitive | ninagram/fields/base.py:81-82 | The value type is matched without regard to case. |
| FieldBase.EncodeIntRoundTrip | ninagram/fields/base.py:63-86 | An integer value encodes, and `int()` of the third part gives it back. |
| CharFields.NewCharField | ninagram/fields/char.py:21-29 | Defaults are max_length 255, min_length 1, null and blank False. Any `value` keyword other than -1 raises NameError("value"). |
| CharFields.NewTextField | ninagram/fields/char.py:75-79 | A TextField builds exactly when a CharField would. It forces max_length 4096, null and blank, and keeps min_length. |
| CharFields.CharValidate | ninagram/fields/char.py:54-64 | Accepts exactly texts within the enabled length limits, handing the text back. The too-long message wins over the too-short one. |
| CharFields.DefaultLengths | ninagram/fields/char.py:21-64 | With the constructor's defaults, exactly texts of 1 to 255 characters are accepted. |
| CharFields.TextFieldLengths | ninagram/fields/char.py:75-79 | A TextField accepts exactly texts of 1 to 4096 characters. |
| CharFields.EmailValidate | ninagram/fields/char.py:87-94 | The empty pattern always matches and `group(1)` raises IndexError, for every text. |
| CharFields.CharNext | ninagram/fields/char.py:32-52 | `**ok**` returns STOP with the staged value and clears it. `**cancel**` returns ABORT and leaves scratch alone. Other text is validated: accepted text is staged, a rejection message goes to the error slot, and both return CONTINUE carrying that value or message. A validator exception gives None. |
| NumericFields.IntegerValidate | ninagram/fields/numeric.py:13-17 | Accepts exactly texts `int()` parses, with the parsed integer; otherwise the conversion message. |
| NumericFields.BooleanValidate | ninagram/fields/numeric.py:31-37 | True exactly for true/yes/y/1, False exactly for false/no/n/0 (lower-cased). Otherwise "Unknown answer received". |
| NumericFields.IntegerValidateRoundTrip | ninagram/fields/numeric.py:13-15 | Every integer's decimal form is accepted as that integer. |
| NumericFields.BooleanTokensDisjoint | ninagram/fields/numeric.py:32-34 | No token is both a true and a false answer. |
| NumericFields.BooleanValidateCaseInsensitive | ninagram/fields/numeric.py:31-35 | The answer does not depend on letter case. |
| NumericFields.IntegerIgnoresLength | ninagram/fields/numeric.py:11-17 | Overriding `validate_data` drops the length checks: a 256-digit number is an integer, while a CharField rejects it as too long. |
| NumericFields.IntegerRejectsEmptyWithItsOwnMessage | ninagram/fields/numeric.py:11-17 | The empty text gets the integer message, where a CharField gives the too-short message. |
| Gregorian.FirstPlus31 | ninagram/inputs/datetime.py:218-221 | The 1st of a month plus 31 days is always in the following month, so NEXT-MONTH never skips a month. |
| Gregorian.FirstMinusOne | ninagram/inputs/datetime.py:214-217 | The day before the 1st is the last day of the preceding month. |
| Gregorian.NextDayWeekday | ninagram/inputs/datetime.py:178 | The next day's weekday is the following weekday, Sunday wrapping to Monday. |
| Gregorian.MonthCalendarPlacesDays | ninagram/inputs/datetime.py:178 | In `monthcalendar`, every day of the month sits once, in the column of its weekday, in reading order. |
| Gregorian.MonthCalendarCells | ninagram/inputs/datetime.py:178 | Every cell of the month grid is 0 or a day of the month, fixed by its position. |
| DateInputs.AddErrorToMsg | ninagram/inputs/datetime.py:152-156 | With a truthy error the message gains the error line with its placeholder unfilled; otherwise it is unchanged. |
| DateInputs.AddErrorToMsgIgnoresText | ninagram/inputs/datetime.py:155 | Any two set errors yield the same message: the error text never reaches the user. |
| DateInputs.AddErrorToMsgFixedShowsError | ninagram/inputs/datetime.py:152-156 | With the placeholder filled in, distinct errors give distinct messages, and no error leaves the message alone. |
| DateInputs.NumberRowsInOrder | ninagram/inputs/datetime.py:25-33 | Read row by row, the number buttons are exactly lo..hi-1 in order, one to three per row. |
| DateInputs.DateMenu | ninagram/inputs/datetime.py:14-106 | Always CONTINUE. It prompts for the first falsy part (year, month, day) with that part's keyboard and the header of the parts already set. Once all are set it shows the date with Clear and OK. |
| DateInputs.FillAdvances | ninagram/inputs/datetime.py:129-148 | Filling the pending part with a non-zero number keeps year, month and day in order and moves the prompt one part on. Filling it with 0 leaves the prompt where it was. |
| DateInputs.ClearRestarts | ninagram/inputs/datetime.py:123-127 | After "clear" the prompt is back at the year. |
| DateInputs.NumberButtonParses | ninagram/inputs/datetime.py:128-131 | A number button's token parses back to its number and is neither "ok" nor "clear". |
| DateInputs.PromptButtonsParse | ninagram/inputs/datetime.py:23-94 | Every non-Clear button of a prompt carries one of the offered numbers (years 2015-2023, months 1-12, days 1-31), which `next` parses. |
| DateInputs.MenuPromptsPending | ninagram/inputs/datetime.py:14-148 | The menu prompts for exactly the part `next` fills. |
| DateInputs.DateNext | ninagram/inputs/datetime.py:110-150 | "ok" (any case) returns STOP with year, month and day. "clear" resets all three. Any other text fills the first falsy part when `int()` parses it, else records that part's error message. With every part set it gives None. `next` keeps the parts in order. |
| DateInputs.WeekButtons | ninagram/inputs/datetime.py:180-186 | The inner loop builds the week's cells: a blank IGNORE cell for 0, otherwise the day with its DAY token. |
| DateInputs.BuildWeekRows | ninagram/inputs/datetime.py:179-186 | The outer loop gives one row per week of `monthcalendar`, in order. |
| DateInputs.BuildNavRow | ninagram/inputs/datetime.py:187-195 | The last row is "<" (or a blank in the current month), a blank, then ">". |
| DateInputs.CalendarKeyboard | ninagram/inputs/datetime.py:173-196 | The loops build title, weekday row, the weeks of `monthcalendar` and the navigation row. |
| DateInputs.CalendarMenu | ninagram/inputs/datetime.py:165-199 | A missing month or year is taken from "now". It returns CONTINUE with the grid. A month outside 1..12 or a non-integer part gives None. |
| DateInputs.CalendarNext | ninagram/inputs/datetime.py:204-227 | A DAY token returns STOP with the date. PREV/NEXT-MONTH store the preceding or following month. IGNORE and unknown actions change nothing. A malformed token or an out-of-range month gives None. |
| DateInputs.CallbackDataSplits | ninagram/inputs/datetime.py:201-207 | A callback token splits back into its action and the decimal forms of its three numbers. |
| DateInputs.CallbackDataDecodes | ninagram/inputs/datetime.py:201-212 | `int()` of each numeric part of a token gives back the encoded number. |
| DateInputs.DayTokenRoundTrip | ninagram/inputs/datetime.py:211-213 | A DAY token of a valid month is read back as exactly that date. |
| DateInputs.IgnoreTokenStays | ninagram/inputs/datetime.py:204-210 | The title and blank-cell token changes nothing. |
| DateInputs.PrevMonthToken | ninagram/inputs/datetime.py:214-217 | PREV-MONTH shows the preceding month and fails only before January of year 1. |
| DateInputs.NextMonthToken | ninagram/inputs/datetime.py:218-221 | NEXT-MONTH shows the following month and fails only after December 9999. |
| DateInputs.NonNumericYearFails | ninagram/inputs/datetime.py:207-208 | A four-part token whose year is not a number fails, whatever its action. |
| DateInputs.WeekdayTokenFails | ninagram/inputs/datetime.py:161-163 | Pressing a weekday-name button fails: its token holds the letters y, m, d. |
| DateInputs.CalendarGridDays | ninagram/inputs/datetime.py:178-186 | Every day of the month appears in the grid once, in its weekday's column, and pressing it picks that date. |
| DateInputs.CalendarGridNavigation | ninagram/inputs/datetime.py:187-195 | "<" shows exactly when the month differs from the current month (of any year). ">" always shows and leads to the following month. |
| SelectInputs.FloorDivMod | ninagram/inputs/datetime.py:270-271 | Python's `//` and `%`: a == b*(a//b) + a%b, with the remainder taking the divisor's sign. |
| SelectInputs.PySlice | ninagram/inputs/datetime.py:251 | A Python slice is never longer than the list. |
| SelectInputs.PageWindowShape | ninagram/inputs/datetime.py:267-285 | The numbered pages are ascending and exactly the forward pages plus the back-filled ones. There are at most three and never the current page. |
| SelectInputs.BackArrow | ninagram/inputs/datetime.py:267-268 | The back arrow shows exactly when `start > 0`, leading to `start - 1`. |
| SelectInputs.ForwardArrow | ninagram/inputs/datetime.py:290-295 | The forward arrow is hidden exactly when `start` is past `len // offset`, or equals it while the choices do not fill their pages exactly. |
| SelectInputs.FirstPageExample | ninagram/inputs/datetime.py:270-295 | With 95 choices, ten per page, the first page offers page indices 1, 2 and 3 and the forward arrow. |
| SelectInputs.LastPageExample | ninagram/inputs/datetime.py:270-295 | On the partly filled last page (index 9) the window back-fills to 6, 7 and 8, and there is no forward arrow. |
| SelectInputs.PageSlice | ninagram/inputs/datetime.py:249-251 | A page shows exactly the choices whose index falls in it, in order. |
| SelectInputs.NavTokenRoundTrip | ninagram/inputs/datetime.py:311-314 | A page token splits into "nav" and a number that `int()` reads back. |
| SelectInputs.ChoiceTokenSplits | ninagram/inputs/datetime.py:264 | A choice token splits into "value" and the `str()` of the choice's value. |
| SelectInputs.PickMarksStringChoice | ninagram/inputs/datetime.py:257-264 | Picking a choice whose value is a string through its own token marks that choice. |
| SelectInputs.PickLeavesIntChoiceUnmarked | ninagram/inputs/datetime.py:257-319 | Picking a choice whose value is an integer never marks it: the pick is the digits as a string. A multiple select marks it only when the list already held the integer. |
| SelectInputs.MultipleWithoutListFails | ninagram/inputs/datetime.py:234-317 | In a multiple select whose selection is not a list, every pick fails. When the selection supports no membership test (None, an integer, a boolean or a model instance), every page with a choice fails. |
| SelectInputs.SingleWithListMarksNothing | ninagram/inputs/datetime.py:260-262 | A single select holding a list marks no string or integer choice. |
| SelectInputs.BuildChoiceButton | ninagram/inputs/datetime.py:252-264 | One choice's button: the check mark when selected, the `value::` token of its value's `str()`, and None when the membership test or the check-mark concatenation raises. |
| SelectInputs.BuildChoiceRows | ninagram/inputs/datetime.py:251-264 | The loop gives one row per choice, marked when selected: membership for a multiple select, equality for a single one. A failed membership test, or marking a plain row that is not a string, gives None. |
| SelectInputs.BuildPageWindow | ninagram/inputs/datetime.py:270-285 | The two loops and the sort compute the page window. |
| SelectInputs.CollectForward | ninagram/inputs/datetime.py:274-276 | The first loop collects the pages start+1 .. range_max in order. |
| SelectInputs.CollectBack | ninagram/inputs/datetime.py:278-283 | The second loop collects the pages from start-avail up to start, skipping negatives. |
| SelectInputs.BuildPageRow | ninagram/inputs/datetime.py:266-297 | The navigation row is the back arrow when start > 0, the numbered pages, then the forward arrow exactly when ForwardArrow says so. |
| SelectInputs.BuildPageButtons | ninagram/inputs/datetime.py:286-288 | The loop makes one button per page, labelled page+1 with its nav token. |
| SelectInputs.SelectKeyboard | ninagram/inputs/datetime.py:246-301 | The keyboard holds the page's choice rows, the navigation row, and OK/Cancel, or is None when a choice row fails. |
| SelectInputs.SelectInput.constructor | ninagram/inputs/datetime.py:232-241 | A given selection is kept, whatever `multiple` says. Otherwise a multiple select starts from a fresh empty list, a single one from None. `initial` is the very same object. |
| SelectInputs.SelectInput.Menu | ninagram/inputs/datetime.py:243-305 | Reads `start`, storing 0 when it is missing, and returns CONTINUE with the keyboard of that page. A non-integer start, a zero offset or a failing choice row gives None. |
| SelectInputs.SelectInput.Next | ninagram/inputs/datetime.py:307-327 | `nav::n` stores page n. `value::v` appends v to the list or replaces the single value; in a multiple select without a list it gives None. `ok::` returns STOP with the selection. `cancel::` returns STOP with `initial`. A token of other than two parts gives None. |
| SelectInputs.CancelKeepsPicks | ninagram/inputs/datetime.py:236-323 | In a multiple select started empty, cancelling after picking v still hands back [v]: `initial` is the list the pick was appended to. |
| SelectInputs.MultipleGivenNoneFailsPick | ninagram/inputs/datetime.py:236-317 | A multiple select given `selected=None` fails a pick and its selection stays None. |
| SelectInputs.SingleGivenListCancelsToList | ninagram/inputs/datetime.py:238-323 | A single select given a list hands back that list on cancel, even after a pick. |
| Forms.GetInput | ninagram/states/forms.py:44-46 | Succeeds exactly for the twelve mapped Django field classes, with the mapped input. Any other class raises KeyError naming it. |
| Forms.BuildInput | ninagram/states/forms.py:80-82 | Building the input with `label=` and `initial=` fails exactly for Django's own BooleanField (TypeError). Otherwise it gives that input over the field. |
| Forms.BooleanFieldHasNoInput | ninagram/states/forms.py:14 | A model BooleanField maps to Django's BooleanField, which cannot be built as an input. |
| Forms.IntegerFieldIsNotMapped | ninagram/states/forms.py:10-23 | A model IntegerField has no entry and raises KeyError. |
| Forms.CharFieldGetsCharInput | ninagram/states/forms.py:80-82 | A model CharField gets a CharField input labelled with the field's name and carrying its initial value. |
| Forms.FormFieldsExact | ninagram/states/forms.py:38-40 | "__all__" expands to exactly the field names whose class is not AutoField. |
| Forms.FieldNamed | ninagram/states/forms.py:73 | Finds a field of that name, or reports that the model has none. |
| Forms.FreshHook | ninagram/states/forms.py:72-84 | An unknown field name raises FieldDoesNotExist. A built hook is the mapped input of that field, with the instance's value (or None) as initial. |
| Forms.SummaryLinesOk | ninagram/states/forms.py:55-58 | The summary renders exactly when the instance has every form field. Otherwise the error names a missing field. |
| Forms.BuildSummary | ninagram/states/forms.py:57-58 | The loop gives the summary lines, or stops at the first missing field. |
| Forms.SummaryStopsAtError | ninagram/states/forms.py:57-58 | Once a prefix of the fields fails, the whole summary fails with the same error. |
| Forms.BaseForm.constructor | ninagram/states/forms.py:32-40 | Position 0. No instance when one is given (as written), else a fresh instance. Fields come from the declared list or the "__all__" expansion. The name is FORM_MODELBASE. |
| Forms.BaseForm.Step1Menu | ninagram/states/forms.py:52-85 | Past the last field it shows the summary with Save/Cancel. An installed hook that continues passes its menu through. Otherwise a fresh input for the current field is installed and its menu returned. Errors propagate and leave the hook alone. |
| Forms.BaseForm.Step1Next | ninagram/states/forms.py:87-119 | "action::save" saves the instance and returns STOP with it (AttributeError without one). "action::cancel" returns ABORT. Past the fields it raises IndexError. A CONTINUE from the hook passes through. STOP/ABORT write the value or None into the field, advance one field and uninstall the hook. Any other status raises ValueError naming the response's `repr()`. |
| Forms.BaseForm.Step1NextWithCharInput | ninagram/states/forms.py:99-114 | With a CharField hook, confirming writes the staged value and cancelling writes None. Either way the form moves one field on and drops the hook. |
| ModelStates.Fetch | ninagram/states/models.py:116 | `objects.get(pk=pk)` finds exactly a non-None key in the table, else DoesNotExist. |
| ModelStates.HookMenuOutcome | ninagram/states/models.py:42-48 | A continuing hook's menu passes through. ABORT gives "Aborted" with a Back button. STOP falls through to None. |
| ModelStates.Columns | ninagram/states/models.py:119 | The detail columns are the model's field names in order. |
| ModelStates.DetailLinesOk | ninagram/states/models.py:120-121 | The details render exactly when the row has every column, listing each column with its value. |
| ModelStates.BuildDetail | ninagram/states/models.py:120-121 | The loop gives the detail lines. |
| ModelStates.DelYes | ninagram/states/models.py:151-158 | "yes" succeeds exactly when the row is found. It then only sets `pk` to None and `deleted` to True in scratch. |
| ModelStates.DeletedMessageUnreachable | ninagram/states/models.py:132-156 | After a confirmed "yes" the delete menu raises DoesNotExist, and the row is still in the table. |
| ModelStates.DelYesFixed | ninagram/states/models.py:151-158 | The corrected "yes" succeeds exactly when the row is found. |
| ModelStates.DeleteThenReport | ninagram/states/models.py:132-158 | With both corrections a confirmed delete removes exactly that row and the next delete menu reports "object deleted". |
| ModelStates.DelMenuFixedAgrees | ninagram/states/models.py:132-149 | Before any delete, the corrected menu equals the one as written. |
| ModelStates.ModelState.Home | ninagram/states/models.py:27-32 | The home menu offers Add and List. |
| ModelStates.ModelState.GetNumberItems | ninagram/states/models.py:164-165 | Nine items per page. |
| ModelStates.ModelState.EnsureHook | ninagram/states/models.py:36-40 | A hook is installed only when none is. |
| ModelStates.ModelState.AddMenu | ninagram/states/models.py:34-48 | Installs a form over the model when no hook is installed, and returns the form menu's outcome. |
| ModelStates.ModelState.AddNext | ninagram/states/models.py:50-61 | Stays while the form continues, otherwise goes to step "list". The hook stays installed. |
| ModelStates.ModelState.ListMenu | ninagram/states/models.py:63-82 | Installs a select of nine per page named "ModelBase" when none is installed, and returns its menu's outcome. |
| ModelStates.ModelState.ListNext | ninagram/states/models.py:84-111 | CONTINUE stays. A truthy pick is stored as `pk`, drops the hook and opens "detail". A falsy pick goes "home" and keeps the hook. Any other status goes "home" and drops it. |
| ModelStates.ModelState.Detail | ninagram/states/models.py:113-130 | The verbose name and every column of the fetched row, or the fetch or attribute error. |
| ModelStates.ModelState.Del | ninagram/states/models.py:132-149 | The row is fetched first. Then either "object deleted" with Back, or the confirmation (with the error when set) with Yes/No. |
| ModelStates.ModelState.DelNext | ninagram/states/models.py:151-158 | The step always stays. Only "yes" changes scratch, as DelYes says. |
| Persistence.UpsertChatEffect | ninagram/models.py:68-74 | An existing chat only gets the new title. A missing one is created with the given type. No other chat changes. |
| Persistence.UpsertChatIdempotent | ninagram/models.py:68-74 | Saving the same chat twice changes nothing the second time, whatever type is asked for. |
| Persistence.SavedUserHasChat | ninagram/models.py:94-102 | After a successful save the user has a chat, and a chat attached just now is in the chat table. |
| Persistence.SessionKeyCollides | ninagram/models.py:159 | Chat 1 with user 23 and chat 12 with user 3 share one cache key. |
| Persistence.SessionKeyFixedInjective | ninagram/models.py:159 | With a separator, distinct (chat, user) pairs get distinct keys. |
| Persistence.Db.SaveChat | ninagram/models.py:68-74 | The chat table becomes the upsert. A write is logged only when a title changed or a row was created. Other tables are untouched. |
| Persistence.Db.GroupCustomSave | ninagram/models.py:61-81 | Upserts the chat with type group or supergroup, records the group, and returns the chat id. `is_staff` has no effect. |
| Persistence.Db.ChannelCustomSave | ninagram/models.py:120-135 | Upserts the chat with type channel and records the channel. |
| Persistence.TgUser.Save | ninagram/models.py:94-102 | A user without a chat gets the matching private chat, by get-or-create. A clashing chat row raises IntegrityError. The user row is written. |
| Persistence.Session.Save | ninagram/models.py:149-152 | Stamps the activity time and writes the row under (chat, user). |
| Persistence.Session.SaveAfter | ninagram/bot.py:43-45 | Queues one save request of the current state with the given force flag. |
| Persistence.Runtime.CacheGetBy | ninagram/models.py:161-165 | A cached key returns its object without reading. A miss loads the (chat, user) row and caches it, or raises DoesNotExist. |
| Persistence.Runtime.CacheGet | ninagram/models.py:154-167 | Keeps the cache coherent. The session returned has the same key as the pair asked for, which is not always the same pair. |
| Persistence.Runtime.CacheGetFixed | ninagram/models.py:154-167 | With the separated key, a coherent cache returns the session of exactly the pair asked for. |
| Persistence.CollidingLookupServesOtherConversation | ninagram/models.py:159-161 | A cache holding chat 1 / user 23's session hands it out for chat 12 / user 3. |
| Dispatcher.AdvanceFailureChangesNothing | ninagram/bot.py:28-40 | A failure loading or advancing the state returns at once: nothing rendered, nothing saved, the state unchanged. |
| Dispatcher.RenderSuccess | ninagram/bot.py:42-54 | A successful render queues the new state unforced, then the final state forced. The final state is `restore_state` when truthy, else the new state. |
| Dispatcher.RenderFallsBackToStart | ninagram/bot.py:55-60 | A failed render renders the fresh START object instead and ends the session in START with an unforced save. |
| Dispatcher.SavesShape | ninagram/bot.py:42-60 | At most two saves. The first records the advanced state. Only the last can be forced, and it is forced exactly when the new state rendered. |
| Dispatcher.StepSetWhenTruthy | ninagram/bot.py:34-35 | The step is set exactly when the transition's step is truthy. |
| Dispatcher.ForceReturnIgnored | ninagram/bot.py:28-40 | Transitions that differ only in force_return dispatch alike. |
| Dispatcher.GenericProcessor | ninagram/bot.py:18-70 | Step by step it does exactly what Dispatch describes: the session ends in the final state, with the saves queued in order. |

## Left out

- FloatField (ninagram/fields/numeric.py:20-26): parsing floating point text is not modelled.
- Language activation in `generic_processor` and `resp.apply`/`state.post` (message sending): I/O.
- The `Bot` class, views.py and startbot.py: outside this model.
- `get_state`, `get_text`, `get_run`/`set_run`, `install_hook` and the hook reconstruction of states/base.py are not part of this model.
  - The scratch area is modelled as the `Scratch.Store` object.
  - A hook's own `menu`/`next` answer is a parameter.
- The select inputs of fields/choice.py (UniqueSelectField and the rest) are not part of this model. Their answers come in as parameters, as for every hook.
- Telegram markup is reduced to captions and callback data.
- `gettext` is the identity: only the default language is modelled.
- Logging is left out.
- ModelStates.ModelRepr: `str(model)` is modelled as `<class 'Name'>` without the module path.
- The join date, time zone and language of a chat row are left out: they are set by Django defaults.
- `get_fields()` is modelled as the declared fields. Reverse relations are not modelled.
- The saver thread behind `save_after` is not modelled: the requests are queued in order.
- The "No item selected" branch of the detail step is not reachable in this model, because a fetched row is always truthy.
- Django's casting of a primary key to its field type is not modelled: the key is matched as given.
- A missing `update.db` is not modelled.
- Text.ParseInt: does not accept underscores or non-ASCII digits, which Python's `int()` does.
- Text.Lower: lower-cases ASCII letters only.
- Python values are compared structurally: `1 == True` and a model instance's own `__eq__` are not modelled.
- The `repr()` of a response is a parameter of Forms.BaseForm.Step1Next: the response class is not part of this model.
- A plain select row whose value is not a string is labelled with its `str()`. How the Telegram library treats a non-string caption is not modelled.
- Membership in other Python containers (sets, tuples, other dicts) is not modelled. A select's selection is one of the modelled values.
- The `return_on_click` keyword is left out: the select input of inputs/datetime.py never reads it.
- The calendar's "now" is a parameter (clock).
- `Session.save`'s time is a parameter (clock).

## Findings

The operations above follow the code as written. Each corrected member below stands beside its as-written member and carries the property the code evidently intends.

| source | as written | input that shows it | evidently intended | confidence | as-written member | corrected member |
|---|---|---|---|---|---|---|
| ninagram/auth.py:320 | `ChatUsernameIn.menu` reads the undefined name `uupdate` | any event reaching a state guarded by ChatUsernameIn | test `update.effective_chat.username`, like `next` | high, not executed | Auth.MenuNextAgree | Auth.MenuIntended |
| ninagram/models.py:159 | the cache key is the two ids written side by side | chat 1 with user 23, then chat 12 with user 3 | a key that tells the pairs apart | high, not executed | Persistence.CollidingLookupServesOtherConversation | Persistence.Runtime.CacheGetFixed |
| ninagram/states/models.py:133-137 | the delete menu fetches the row before it checks `deleted` | "yes" on an existing row, then the delete menu with `pk` None | report "object deleted" | high, not executed | ModelStates.DeletedMessageUnreachable | ModelStates.DelMenuFixed |
| ninagram/states/models.py:152-156 | "yes" fetches the row and never deletes it | "yes" on any existing row | remove the row | high, not executed | ModelStates.DelYes | ModelStates.DeleteThenReport |
| ninagram/inputs/datetime.py:155 | the error line is appended with its `{}` placeholder unfilled | error "Please enter a valid year" shows as a bare placeholder | format the stored error into the line | high, not executed | DateInputs.AddErrorToMsgIgnoresText | DateInputs.AddErrorToMsgFixedShowsError |
