/**
 * The per-conversation working memory of a state or widget: a key-value map
 * (`get_run`/`set_run`), an error slot (`set_error`/`get_error`) and a hook slot
 * (`install_hook`/`get_hook`).
 */
module Scratch {
  import opened Wrappers
  import opened Protocol

  /** The value `get_run(key, default)` reads from a run map. */
  function Lookup(run: map<string, Value>, key: string, default: Value): (v: Value)
    ensures key in run ==> v == run[key]
    ensures key !in run ==> v == default
  {
    if key in run then run[key] else default
  }

  class Store {
    var run: map<string, Value>
    var error: Option<string>
    var hook: Option<HookSpec>

    constructor ()
      ensures run == map[] && error == None && hook == None
    {
      run := map[];
      error := None;
      hook := None;
    }

    /** `get_run(key, default)`. */
    function Get(key: string, default: Value): (v: Value)
      reads this
      ensures v == Lookup(run, key, default)
    {
      Lookup(run, key, default)
    }

    /** True when `get_error()` gives a non-empty message. */
    predicate HasError()
      reads this
    {
      error.Some? && error.value != ""
    }

    /** `set_run(key, v)`. */
    method Set(key: string, v: Value)
      modifies this
      ensures run == old(run)[key := v]
      ensures error == old(error) && hook == old(hook)
    {
      run := run[key := v];
    }

    /** `get_run(key, default, insert=True)`: the default is stored when the key is absent. */
    method GetInsert(key: string, default: Value) returns (v: Value)
      modifies this
      ensures v == old(Get(key, default))
      ensures run == old(run)[key := v]
      ensures error == old(error) && hook == old(hook)
    {
      v := Get(key, default);
      run := run[key := v];
    }

    /** `set_error(message)`. */
    method SetError(message: string)
      modifies this
      ensures error == Some(message)
      ensures run == old(run) && hook == old(hook)
    {
      error := Some(message);
    }

    /** `install_hook(h)`; `install_hook(None)` clears the slot. */
    method InstallHook(h: Option<HookSpec>)
      modifies this
      ensures hook == h
      ensures run == old(run) && error == old(error)
    {
      hook := h;
    }
  }
}
