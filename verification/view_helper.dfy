/**
  The view-helper mixin: a template forwards an unknown lookup into the context
  chain only for names the chain declares as view helpers.
 */
module ViewHelperAdapter {
  import opened Wrappers
  import opened Chain
  import opened Declarations
  import opened Queries
  import opened Dispatch

  /**
    The helper's `method_missing`: forwards `n` to the context when there is one
    and it answers `has_view_helper?(n)`, otherwise falls through to `super`.
   */
  function HelperMethodMissing(host: Host, ctx: Option<Layer>, n: string): (r: Forward)
    ensures r.Forwarded? <==> ctx.Some? && exists k :: 0 <= k < Depth(ctx.value) && HelperAt(ctx.value, k, Sym(n))
    ensures r.Forwarded? ==> r.result == Invoke(host, ctx.value, n)
  {
    if ctx.Some? then
      HasViewHelperAnywhere(ctx.value, Sym(n));
      if HasViewHelper(ctx.value, Sym(n)) then Forwarded(Invoke(host, ctx.value, n)) else FallThrough
    else
      FallThrough
  }

  /**
    The helper's `respond_to_missing?` as written: it asks the context without
    checking that there is one, so with no context the call `has_view_helper?`
    is sent to nil and raises NoMethodError.
   */
  function HelperRespondToMissing(ctx: Option<Layer>, n: string): (r: Result<bool, Error>)
    ensures ctx.None? ==> r == Err(NoMethodError("has_view_helper?"))
    ensures ctx.Some? ==> r.Ok? && (r.value <==> exists k :: 0 <= k < Depth(ctx.value) && HelperAt(ctx.value, k, Sym(n)))
  {
    if ctx.None? then Err(NoMethodError("has_view_helper?"))
    else
      HasViewHelperAnywhere(ctx.value, Sym(n));
      Ok(HasViewHelper(ctx.value, Sym(n)))
  }

  /**
    With no context, the as-written `respond_to_missing?` raises although
    `method_missing` quietly falls through for the same name.
   */
  lemma RespondToMissingRaisesWithoutContext(host: Host, n: string)
    ensures HelperMethodMissing(host, None, n) == FallThrough
    ensures HelperRespondToMissing(None, n).Err?
  {
  }

  /**
    `respond_to_missing?` with the nil guard that `method_missing` has: the view
    responds to `n` exactly when its `method_missing` would forward `n`.
   */
  function HelperRespondsTo(ctx: Option<Layer>, n: string): (r: bool)
    ensures forall host: Host :: r <==> HelperMethodMissing(host, ctx, n).Forwarded?
    ensures ctx.Some? ==> HelperRespondToMissing(ctx, n) == Ok(r)
  {
    ctx.Some? && HasViewHelper(ctx.value, Sym(n))
  }

  /**
    A public context method that no class in the chain declares as a view helper
    is not reachable through the view, although ordinary dispatch resolves it.
   */
  lemma UndeclaredMethodHidden(host: Host, l: Layer, n: string)
    requires Resolve(l, n).Some?
    requires forall k :: 0 <= k < Depth(l) ==> !HelperAt(l, k, Sym(n))
    ensures HelperMethodMissing(host, Some(l), n) == FallThrough
    ensures !HelperRespondsTo(Some(l), n)
    ensures Invoke(host, l, n) == Run(host, Ancestor(l, Resolve(l, n).value), n)
  {
    InvokeResolves(host, l, n);
  }

  /**
    A helper declared on any ancestor's class is reachable from a descendant's
    view, and the lookup is answered by ordinary chain dispatch.
   */
  lemma AncestorHelperReachable(host: Host, l: Layer, n: string, k: nat)
    requires k < Depth(l)
    requires ClassHasViewHelper(Ancestor(l, k).cls, Sym(n))
    ensures HelperMethodMissing(host, Some(l), n) == Forwarded(Invoke(host, l, n))
    ensures HelperRespondsTo(Some(l), n)
  {
    assert HelperAt(l, k, Sym(n));
  }
}
