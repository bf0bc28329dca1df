/**
 * Context hooks (hook.go): the hook type and the selection of the context
 * from a logging call's variadic context arguments.
 */
module Hooks {
  import Go

  /** CtxHook: derives extra fields, keyed by name, from a request context. */
  type CtxHook = Go.Context -> map<string, Go.Dynamic>

  /** withCtx: the first context passed, or nil when none was passed. */
  function WithCtx(contexts: seq<Go.Nullable<Go.Context>>): (r: Go.Nullable<Go.Context>)
    ensures r.Nil? <==> |contexts| == 0 || contexts[0].Nil?
    ensures r.Some? ==> r == contexts[0]
  {
    if |contexts| == 0 then Go.Nil else contexts[0]
  }

  /** Contexts after the first one are ignored. */
  lemma WithCtxIgnoresRest(first: Go.Nullable<Go.Context>, rest: seq<Go.Nullable<Go.Context>>)
    ensures WithCtx([first] + rest) == first
  {
  }
}
