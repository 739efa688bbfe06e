/**
 * Access guards: predicates over the facts of an event that gate entry to a
 * state. Each guard answers a "menu" check and a "next" check with a pair
 * (allowed, response) whose shape is fixed by the BaseAccess helpers.
 * Guards hold nothing mutable: every check here is a function of the guard's
 * configuration and the event.
 */
module Auth {
  import opened Wrappers
  import opened Protocol

  datatype Guard =
    | UserIsStaff
    | UserIsSuper
    | ChatIsStaff
    | ChatIsPrivate
    | ChatIsGroup
    | ChatIsSupergroup
    | ChatIsChannel
    | ChatIsAnyGroup
    | UserIdIn(userIds: seq<int>)
    | UserUsernameIn(usernames: seq<Option<string>>)
    | ChatIdIn(chatIds: seq<int>)
    | ChatUsernameIn(chatnames: seq<Option<string>>)

  /** The pair `(allowed, response)` every check returns. */
  datatype Verdict<R> = Verdict(allowed: bool, response: Option<R>)

  /** `BaseAccess.error_message`. */
  const ErrorMessage: string := "Sorry! You are not authorized"

  /** `BaseAccess.fallback_state`; the refusal transition does not read it. */
  const FallbackState: string := "START"

  /** The transition a refused `next` returns: the literal "START", step 1, forced. */
  const RefusedTransition: NextResponse := NextResponse("START", StepNum(1), Some(1))

  function NextErrorResponse(): Verdict<NextResponse> { Verdict(false, Some(RefusedTransition)) }

  function NextSuccessResponse(): Verdict<NextResponse> { Verdict(true, None) }

  function MenuErrorResponse(): Verdict<MenuResponse> { Verdict(false, Some(MenuResponse(ErrorMessage, None))) }

  function MenuSuccessResponse(): Verdict<MenuResponse> { Verdict(true, None) }

  /** The condition each guard class tests in its `next`. */
  predicate Admits(g: Guard, ev: Event) {
    match g
    case UserIsStaff => ev.userIsStaff
    case UserIsSuper => ev.userIsSuper
    case ChatIsStaff => ev.chatIsStaff
    case ChatIsPrivate => ev.chatType == "private"
    case ChatIsGroup => ev.chatType == "group"
    case ChatIsSupergroup => ev.chatType == "supergroup"
    case ChatIsChannel => ev.chatType == "channel"
    case ChatIsAnyGroup => ev.chatType == "group" || ev.chatType == "supergroup"
    case UserIdIn(ids) => ev.userId in ids
    case UserUsernameIn(names) => ev.username in names
    case ChatIdIn(ids) => ev.chatId in ids
    case ChatUsernameIn(names) => ev.chatUsername in names
  }

  /** `next` (and `next_group`, the same function) of every guard class. */
  function Next(g: Guard, ev: Event): (r: Verdict<NextResponse>)
    ensures r.allowed <==> Admits(g, ev)
    ensures r.allowed ==> r.response == None
    ensures !r.allowed ==> r.response == Some(NextResponse("START", StepNum(1), Some(1)))
  {
    if Admits(g, ev) then NextSuccessResponse() else NextErrorResponse()
  }

  /**
   * `menu` (and `menu_group`) of every guard class. `ChatUsernameIn.menu`
   * reads the undefined name `uupdate` and raises NameError before deciding.
   */
  function Menu(g: Guard, ev: Event): (r: Result<Verdict<MenuResponse>>)
    ensures r.Err? <==> g.ChatUsernameIn?
    ensures r.Err? ==> r.error == NameError("uupdate")
    ensures r.Ok? ==> (r.value.allowed <==> Admits(g, ev))
    ensures r.Ok? && r.value.allowed ==> r.value.response == None
    ensures r.Ok? && !r.value.allowed ==> r.value.response == Some(MenuResponse("Sorry! You are not authorized", None))
  {
    if g.ChatUsernameIn? then Err(NameError("uupdate"))
    else if Admits(g, ev) then Ok(MenuSuccessResponse())
    else Ok(MenuErrorResponse())
  }

  /** `menu` as evidently intended: every class, `ChatUsernameIn` included, reads `update`. */
  function MenuIntended(g: Guard, ev: Event): (r: Verdict<MenuResponse>)
    ensures r.allowed <==> Admits(g, ev)
    ensures !r.allowed ==> r.response == Some(MenuResponse("Sorry! You are not authorized", None))
  {
    if Admits(g, ev) then MenuSuccessResponse() else MenuErrorResponse()
  }

  /** For one event, every guard's `menu` and `next` agree, except `ChatUsernameIn.menu`, which always raises. */
  lemma MenuNextAgree(g: Guard, ev: Event)
    ensures !g.ChatUsernameIn? ==> Menu(g, ev).Ok? && Menu(g, ev).value.allowed == Next(g, ev).allowed
    ensures g.ChatUsernameIn? ==> Menu(g, ev) == Err(NameError("uupdate"))
    ensures MenuIntended(g, ev).allowed == Next(g, ev).allowed
    ensures !g.ChatUsernameIn? ==> Menu(g, ev) == Ok(MenuIntended(g, ev))
  {
  }

  /** The four single-type chat guards each admit exactly one chat type, so at most one admits. */
  lemma ChatTypeGuardsExclusive(ev: Event)
    ensures Next(ChatIsPrivate, ev).allowed <==> ev.chatType == "private"
    ensures Next(ChatIsGroup, ev).allowed <==> ev.chatType == "group"
    ensures Next(ChatIsSupergroup, ev).allowed <==> ev.chatType == "supergroup"
    ensures Next(ChatIsChannel, ev).allowed <==> ev.chatType == "channel"
    ensures Next(ChatIsAnyGroup, ev).allowed <==> Next(ChatIsGroup, ev).allowed || Next(ChatIsSupergroup, ev).allowed
    ensures !(Next(ChatIsPrivate, ev).allowed && Next(ChatIsGroup, ev).allowed)
    ensures !(Next(ChatIsGroup, ev).allowed && Next(ChatIsSupergroup, ev).allowed)
    ensures !(Next(ChatIsSupergroup, ev).allowed && Next(ChatIsChannel, ev).allowed)
    ensures !(Next(ChatIsPrivate, ev).allowed && Next(ChatIsChannel, ev).allowed)
  {
  }

  /** The membership guards admit exactly when the event's id or username occurs in the configured sequence. */
  lemma MembershipGuards(ids: seq<int>, names: seq<Option<string>>, ev: Event)
    ensures Next(UserIdIn(ids), ev).allowed <==> exists k :: 0 <= k < |ids| && ids[k] == ev.userId
    ensures Next(ChatIdIn(ids), ev).allowed <==> exists k :: 0 <= k < |ids| && ids[k] == ev.chatId
    ensures Next(UserUsernameIn(names), ev).allowed <==> exists k :: 0 <= k < |names| && names[k] == ev.username
    ensures Next(ChatUsernameIn(names), ev).allowed <==> exists k :: 0 <= k < |names| && names[k] == ev.chatUsername
  {
  }

  /**
   * An illustration of MembershipGuards on one configuration: `UserIdIn([42])`
   * refuses user 7 in both contexts, with the two refusal responses.
   */
  lemma UserIdInRefusesStranger(ev: Event)
    requires ev.userId == 7
    ensures Next(UserIdIn([42]), ev) == Verdict(false, Some(NextResponse("START", StepNum(1), Some(1))))
    ensures Menu(UserIdIn([42]), ev) == Ok(Verdict(false, Some(MenuResponse("Sorry! You are not authorized", None))))
  {
  }

  /** A constructor argument: a Python list, a tuple, or anything else. */
  datatype Container<T> = PyList(elems: seq<T>) | PyTuple(elems: seq<T>) | OtherObject

  /** `UserIdIn(user_ids)`. */
  function NewUserIdIn(arg: Container<int>): (r: Result<Guard>)
    ensures r.Ok? <==> !arg.OtherObject?
    ensures r.Ok? ==> r.value == UserIdIn(arg.elems)
    ensures r.Err? ==> r.error == TypeError("user_ids must list or tuples")
  {
    if arg.OtherObject? then Err(TypeError("user_ids must list or tuples")) else Ok(UserIdIn(arg.elems))
  }

  /** `UserUsernameIn(usernames)`. */
  function NewUserUsernameIn(arg: Container<Option<string>>): (r: Result<Guard>)
    ensures r.Ok? <==> !arg.OtherObject?
    ensures r.Ok? ==> r.value == UserUsernameIn(arg.elems)
    ensures r.Err? ==> r.error == TypeError("usernames must list or tuples")
  {
    if arg.OtherObject? then Err(TypeError("usernames must list or tuples")) else Ok(UserUsernameIn(arg.elems))
  }

  /** `ChatIdIn(chat_ids)`; its message still names `user_ids`. */
  function NewChatIdIn(arg: Container<int>): (r: Result<Guard>)
    ensures r.Ok? <==> !arg.OtherObject?
    ensures r.Ok? ==> r.value == ChatIdIn(arg.elems)
    ensures r.Err? ==> r.error == TypeError("user_ids must list or tuples")
  {
    if arg.OtherObject? then Err(TypeError("user_ids must list or tuples")) else Ok(ChatIdIn(arg.elems))
  }

  /** `ChatUsernameIn(chatnames)`; its message still names `user_ids`. */
  function NewChatUsernameIn(arg: Container<Option<string>>): (r: Result<Guard>)
    ensures r.Ok? <==> !arg.OtherObject?
    ensures r.Ok? ==> r.value == ChatUsernameIn(arg.elems)
    ensures r.Err? ==> r.error == TypeError("user_ids must list or tuples")
  {
    if arg.OtherObject? then Err(TypeError("user_ids must list or tuples")) else Ok(ChatUsernameIn(arg.elems))
  }

  /** A guard built from a list admits exactly the same events as one built from the tuple with the same elements. */
  lemma ListAndTupleAgree(xs: seq<int>, ev: Event)
    ensures NewUserIdIn(PyList(xs)) == NewUserIdIn(PyTuple(xs))
    ensures NewChatIdIn(PyList(xs)) == NewChatIdIn(PyTuple(xs))
    ensures NewUserIdIn(PyList(xs)).Ok? && Next(NewUserIdIn(PyList(xs)).value, ev).allowed == (ev.userId in xs)
  {
  }
}
