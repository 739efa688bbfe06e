/**
 * `generic_processor` of `bot.py`: one event advances the session's state
 * with the previous state's `next`, records the new state name, renders the
 * new state's `menu` and records the state name again; a failed render
 * falls back to the "START" state.
 */
module Dispatcher {
  import opened Wrappers
  import opened Protocol
  import opened Persistence

  /** A state object as the dispatcher sees it: its name. */
  datatype StateInfo = StateInfo(name: string)

  /** What a state's `menu` produced, and its `restore_state` attribute read afterwards. */
  datatype Rendered = Rendered(response: Option<MenuResponse>, restoreState: Option<string>)

  /**
   * The collaborators of one event, each of which may raise: `get_state` by
   * name, the previous state's `next` (keyed by the session's state name),
   * `set_step` on the new state, the new state's `menu`, and the `menu` of the
   * fresh START object that a failed render falls back to. That object is not
   * the one whose render failed (it never had its step set, and the failed
   * render may have left changes behind), so its answer is its own collaborator
   * even when the new state is START too.
   */
  datatype Collaborators = Collaborators(
    getState: string -> Result<StateInfo>,
    next: string -> Result<NextResponse>,
    setStep: (string, Step) -> Result<()>,
    menu: string -> Result<Rendered>,
    startMenu: string -> Result<Rendered>)

  /** The effects of one event: the step set, the queued saves, the session's final state and what was rendered. */
  datatype Dispatched = Dispatched(stepSet: Option<Step>, saves: seq<SaveRequest>, finalState: string, rendered: Option<MenuResponse>)

  predicate RestoreTruthy(r: Option<string>) {
    r.Some? && r.value != ""
  }

  /** The advance block: the new state, and the step set on it when the response's step is truthy. */
  function Advance(prev: string, c: Collaborators): Result<(StateInfo, Option<Step>)> {
    match c.next(prev)
    case Err(e) => Err(e)
    case Ok(resp) =>
      match c.getState(resp.state)
      case Err(e) => Err(e)
      case Ok(state) =>
        if StepTruthy(resp.step) then
          match c.setStep(state.name, resp.step)
          case Err(e) => Err(e)
          case Ok(_) => Ok((state, Some(resp.step)))
        else Ok((state, None))
  }

  /** The whole event, from the session's state name `prev`. */
  function Dispatch(prev: string, c: Collaborators): Dispatched {
    match c.getState(prev)
    case Err(_) => Dispatched(None, [], prev, None)
    case Ok(_) =>
      match Advance(prev, c)
      case Err(_) => Dispatched(None, [], prev, None)
      case Ok((state, step)) =>
        var first := SaveRequest(state.name, false);
        match c.menu(state.name)
        case Ok(out) =>
          var final := if RestoreTruthy(out.restoreState) then out.restoreState.value else state.name;
          Dispatched(step, [first, SaveRequest(final, true)], final, out.response)
        case Err(_) =>
          match c.getState("START")
          case Err(_) => Dispatched(step, [first], state.name, None)
          case Ok(start) =>
            match c.startMenu(start.name)
            case Err(_) => Dispatched(step, [first], state.name, None)
            case Ok(out) => Dispatched(step, [first, SaveRequest(start.name, false)], start.name, out.response)
  }

  /** A failed advance returns at once: nothing rendered, no save, the session's state untouched. */
  lemma AdvanceFailureChangesNothing(prev: string, c: Collaborators)
    requires c.getState(prev).Err? || Advance(prev, c).Err?
    ensures Dispatch(prev, c) == Dispatched(None, [], prev, None)
  {
  }

  /**
   * A successful render queues exactly two saves, the new state's name
   * unforced and then the final state forced; the final state is
   * `restore_state` when truthy, else the new state's name.
   */
  lemma RenderSuccess(prev: string, c: Collaborators)
    requires c.getState(prev).Ok? && Advance(prev, c).Ok?
    requires c.menu(Advance(prev, c).value.0.name).Ok?
    ensures var name := Advance(prev, c).value.0.name;
      var out := c.menu(name).value;
      var final := if RestoreTruthy(out.restoreState) then out.restoreState.value else name;
      && Dispatch(prev, c).saves == [SaveRequest(name, false), SaveRequest(final, true)]
      && Dispatch(prev, c).finalState == final
      && Dispatch(prev, c).rendered == out.response
  {
  }

  /** A failed render renders START instead, and the session ends in START with an unforced save. */
  lemma RenderFallsBackToStart(prev: string, c: Collaborators)
    requires c.getState(prev).Ok? && Advance(prev, c).Ok?
    requires c.menu(Advance(prev, c).value.0.name).Err?
    requires c.getState("START").Ok? && c.startMenu(c.getState("START").value.name).Ok?
    ensures var start := c.getState("START").value.name;
      && Dispatch(prev, c).saves == [SaveRequest(Advance(prev, c).value.0.name, false), SaveRequest(start, false)]
      && Dispatch(prev, c).finalState == start
      && Dispatch(prev, c).rendered == c.startMenu(start).value.response
  {
  }

  /**
   * In every outcome there are at most two saves, the first always records
   * the advanced state's name, only the last can be forced, and it is forced
   * exactly when the new state rendered.
   */
  lemma SavesShape(prev: string, c: Collaborators)
    ensures var d := Dispatch(prev, c);
      && |d.saves| <= 2
      && (d.saves != [] ==> c.getState(prev).Ok? && Advance(prev, c).Ok? && d.saves[0] == SaveRequest(Advance(prev, c).value.0.name, false))
      && (forall i :: 0 <= i < |d.saves| && d.saves[i].forceUpdate ==> i == |d.saves| - 1)
      && (|d.saves| == 2 && d.saves[1].forceUpdate <==> c.getState(prev).Ok? && Advance(prev, c).Ok? && c.menu(Advance(prev, c).value.0.name).Ok?)
      && (d.saves != [] ==> d.finalState == d.saves[|d.saves| - 1].state)
  {
  }

  /** `set_step` runs exactly when the transition's step is truthy. */
  lemma StepSetWhenTruthy(prev: string, c: Collaborators)
    requires c.getState(prev).Ok? && c.next(prev).Ok?
    ensures var resp := c.next(prev).value;
      (Dispatch(prev, c).stepSet.Some? <==> Advance(prev, c).Ok? && StepTruthy(resp.step))
      && (Dispatch(prev, c).stepSet.Some? ==> Dispatch(prev, c).stepSet == Some(resp.step))
  {
  }

  /** `force_return` is never read: transitions that differ only there dispatch alike. */
  lemma ForceReturnIgnored(prev: string, c: Collaborators, next': string -> Result<NextResponse>)
    requires forall p :: c.next(p).Ok? <==> next'(p).Ok?
    requires forall p :: c.next(p).Err? ==> next'(p) == c.next(p)
    requires forall p :: c.next(p).Ok? ==> next'(p).value.(forceReturn := None) == c.next(p).value.(forceReturn := None)
    ensures Dispatch(prev, c.(next := next')) == Dispatch(prev, c)
  {
    var c' := c.(next := next');
    assert Advance(prev, c') == Advance(prev, c) by {
      if c.next(prev).Ok? {
        assert next'(prev).value.state == c.next(prev).value.state;
        assert next'(prev).value.step == c.next(prev).value.step;
      }
    }
  }

  /** `generic_processor` on a session, step by step. */
  method GenericProcessor(sess: Session, c: Collaborators) returns (d: Dispatched)
    modifies sess
    ensures d == Dispatch(old(sess.state), c)
    ensures sess.state == d.finalState
    ensures sess.saveRequests == old(sess.saveRequests) + d.saves
    ensures sess.lastActivity == old(sess.lastActivity)
  {
    var prev := sess.state;
    var prevState := c.getState(prev);
    if prevState.Err? {
      return Dispatched(None, [], prev, None);
    }
    var resp := c.next(prev);
    if resp.Err? {
      return Dispatched(None, [], prev, None);
    }
    var loaded := c.getState(resp.value.state);
    if loaded.Err? {
      return Dispatched(None, [], prev, None);
    }
    var state := loaded.value;
    var step: Option<Step> := None;
    if StepTruthy(resp.value.step) {
      var stepped := c.setStep(state.name, resp.value.step);
      if stepped.Err? {
        return Dispatched(None, [], prev, None);
      }
      step := Some(resp.value.step);
    }

    sess.state := state.name;
    sess.SaveAfter(false);

    var out := c.menu(state.name);
    if out.Ok? {
      if RestoreTruthy(out.value.restoreState) {
        sess.state := out.value.restoreState.value;
      } else {
        sess.state := state.name;
      }
      sess.SaveAfter(true);
      return Dispatched(step, [SaveRequest(state.name, false), SaveRequest(sess.state, true)], sess.state, out.value.response);
    }
    var start := c.getState("START");
    if start.Err? {
      return Dispatched(step, [SaveRequest(state.name, false)], state.name, None);
    }
    var fallback := c.startMenu(start.value.name);
    if fallback.Err? {
      return Dispatched(step, [SaveRequest(state.name, false)], state.name, None);
    }
    sess.state := start.value.name;
    sess.SaveAfter(false);
    d := Dispatched(step, [SaveRequest(state.name, false), SaveRequest(start.value.name, false)], start.value.name, fallback.value.response);
  }
}
