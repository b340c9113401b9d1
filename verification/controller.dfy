/**
  The controller mixin: it keeps the request's current context, resets it to a
  bare root before each action, extends it layer by layer, and forwards unknown
  calls to it.
 */
module ContextController {
  import opened Wrappers
  import opened Chain
  import opened Queries
  import opened Dispatch
  import opened Binding

  /** The public instance methods `Context::BaseContext` defines itself. */
  const BaseContextMethods: set<string> :=
    {"link_to", "parent_context", "parent_context=", "context_class_chain",
     "has_view_helper?", "context_method_mapping", "method_missing", "whereis"}

  /** The class `Context::BaseContext`, which declares no view helpers. */
  const BaseContextClass: ClassDesc :=
    ClassDesc("Context::BaseContext", BaseContextMethods, BaseContextMethods,
              {"initialize", "respond_to_missing?", "get_context_method_mapping"}, None, map[])

  /** The controller's `@__context`, nil until the first reset. */
  datatype ControllerState = ControllerState(current: Option<Layer>)

  /** The controller state after `extend_context`, and the error it raised if any. */
  datatype Extended = Extended(state: ControllerState, error: Option<Error>)

  /** The class chain of the current context, empty when there is none. */
  function CurrentChain(s: ControllerState): seq<string>
  {
    if s.current.Some? then ClassChain(s.current.value) else []
  }

  /**
    `__set_base_context`: whatever was there before, the current context becomes
    a new root `Context::BaseContext` with no parent and no fields.
   */
  function SetBaseContext(s: ControllerState): (r: ControllerState)
    ensures r.current.Some? && r.current.value.parent.None? && r.current.value.fields == map[]
    ensures ValidChain(r.current.value)
    ensures CurrentChain(r) == ["Context::BaseContext"]
    ensures forall n :: HasViewHelper(r.current.value, n) == false
    ensures forall n :: Whereis(r.current.value, Sym(n)).Some? <==> n in BaseContextMethods
  {
    ControllerState(Some(Layer(BaseContextClass, None, map[])))
  }

  /**
    `extend_context(context, **args)`: looks up the class `"#{context}Context"`
    in `registry` (`constantize`, NameError when it is missing) and replaces the
    current context by `wrap(current, **args)`. When the binding raises, the
    current context is not replaced, though setters that already ran on its
    layers keep their effect.
   */
  function ExtendContext(registry: map<string, ClassDesc>, s: ControllerState, context: string,
                         args: seq<(string, Value)>): (r: Extended)
    requires forall i :: 0 <= i < |args| ==> args[i].0 != "parent_context"
    ensures context + "Context" !in registry ==>
              r == Extended(s, Some(NameError("uninitialized constant " + (context + "Context"))))
    ensures r.error.None? ==>
              && context + "Context" in registry
              && r.state.current.Some?
              && r.state.current.value.cls == registry[context + "Context"]
              && r.state.current.value.parent.Some? == s.current.Some?
              && (s.current.Some? ==> SameShape(s.current.value, r.state.current.value.parent.value))
              && CurrentChain(r.state) == CurrentChain(s) + [registry[context + "Context"].name]
    ensures r.error.Some? ==>
              && r.state.current.Some? == s.current.Some?
              && (s.current.Some? ==> SameShape(s.current.value, r.state.current.value))
              && CurrentChain(r.state) == CurrentChain(s)
  {
    var name := context + "Context";
    if name !in registry then
      if s.current.Some? then
        SameShapeRefl(s.current.value);
        Extended(s, Some(NameError("uninitialized constant " + name)))
      else
        Extended(s, Some(NameError("uninitialized constant " + name)))
    else
      match Wrap(registry[name], s.current, args)
      case Done(l) => Extended(ControllerState(Some(l)), None)
      case Failed(partial, e) =>
        if s.current.Some? then
          SameShapeClassChain(s.current.value, partial.parent.value);
          Extended(ControllerState(partial.parent), Some(e))
        else
          Extended(ControllerState(partial.parent), Some(e))
  }

  /** Each constant of the registry names a class of that name. */
  predicate RegistryNamed(registry: map<string, ClassDesc>)
  {
    forall k :: k in registry ==> registry[k].name == k
  }

  /** A successful `extend_context(context)` grows the class chain by exactly `"#{context}Context"`. */
  lemma ExtendGrowsChain(registry: map<string, ClassDesc>, s: ControllerState, context: string,
                         args: seq<(string, Value)>)
    requires forall i :: 0 <= i < |args| ==> args[i].0 != "parent_context"
    requires RegistryNamed(registry)
    requires ExtendContext(registry, s, context, args).error.None?
    ensures CurrentChain(ExtendContext(registry, s, context, args).state) == CurrentChain(s) + [context + "Context"]
  {
  }

  /**
    After a successful `extend_context` the old context is the new layer's
    parent, with the same classes, so every `has_view_helper?` and `whereis`
    answer it gave and every dispatch target it had carry over to that parent.
   */
  lemma ExtendKeepsOldAnswers(registry: map<string, ClassDesc>, s: ControllerState, context: string,
                              args: seq<(string, Value)>, n: MethodName)
    requires forall i :: 0 <= i < |args| ==> args[i].0 != "parent_context"
    requires s.current.Some?
    requires ExtendContext(registry, s, context, args).error.None?
    ensures ExtendContext(registry, s, context, args).state.current.value.parent.Some?
    ensures var p := ExtendContext(registry, s, context, args).state.current.value.parent.value;
            && ClassChain(p) == ClassChain(s.current.value)
            && HasViewHelper(p, n) == HasViewHelper(s.current.value, n)
            && Whereis(p, n) == Whereis(s.current.value, n)
            && Resolve(p, ToSym(n)) == Resolve(s.current.value, ToSym(n))
  {
    var before := s.current.value;
    var p := ExtendContext(registry, s, context, args).state.current.value.parent.value;
    SameShapeClassChain(before, p);
    SameShapeHasViewHelper(before, p, n);
    SameShapeMapping(before, p);
    SameShapeResolve(before, p, ToSym(n));
  }

  /**
    When every attribute names a distinct public attribute writer of the new
    chain, `extend_context` succeeds and each value is stored on the layer that
    owns its setter, which may be the new layer or one of the old context's.
   */
  lemma ExtendStoresKnownAttributes(registry: map<string, ClassDesc>, s: ControllerState, context: string,
                                    args: seq<(string, Value)>)
    requires forall i :: 0 <= i < |args| ==> args[i].0 != "parent_context"
    requires context + "Context" in registry
    requires DistinctKeys(args)
    requires forall i :: 0 <= i < |args| ==> WritableAttr(Layer(registry[context + "Context"], s.current, map[]), args[i].0)
    ensures ExtendContext(registry, s, context, args).error.None?
    ensures forall i :: 0 <= i < |args| ==>
              var top := Layer(registry[context + "Context"], s.current, map[]);
              && WritableAttr(top, args[i].0)
              && FieldAt(ExtendContext(registry, s, context, args).state.current.value,
                         SetterDepth(top, args[i].0), args[i].0) == Some(args[i].1)
  {
    var top := Layer(registry[context + "Context"], s.current, map[]);
    BindAllKnown(top, args);
    assert Wrap(registry[context + "Context"], s.current, args) == Bind(top, args);
  }

  /**
    When the attributes before it bind without error, an attribute without a
    public setter in the new chain makes `extend_context` raise ArgumentError
    naming it, and the current context is not replaced.
   */
  lemma ExtendRejectsUnknownAttribute(registry: map<string, ClassDesc>, s: ControllerState, context: string,
                                      args: seq<(string, Value)>, i: nat)
    requires forall j :: 0 <= j < |args| ==> args[j].0 != "parent_context"
    requires context + "Context" in registry
    requires i < |args|
    requires Wrap(registry[context + "Context"], s.current, args[..i]).Done?
    requires Resolve(Layer(registry[context + "Context"], s.current, map[]), args[i].0 + "=").None?
    ensures ExtendContext(registry, s, context, args).error == Some(ArgumentError("unknown attribute: " + args[i].0))
    ensures CurrentChain(ExtendContext(registry, s, context, args).state) == CurrentChain(s)
  {
    BindStopsAtUnknown(Layer(registry[context + "Context"], s.current, map[]), args, i);
  }

  /**
    The controller's `respond_to_missing?`: the current context's `respond_to?`
    with the same flag; with no current context, false.
   */
  predicate ControllerRespondsTo(s: ControllerState, n: string, includePrivate: bool)
  {
    s.current.Some? && RespondTo(s.current.value, n, includePrivate)
  }

  /**
    The controller's `method_missing`: forwards the call to the current context
    only when that context responds to it (private methods excluded), else falls
    through to `super`.
   */
  function ControllerMethodMissing(host: Host, s: ControllerState, n: string): (r: Forward)
    ensures r.Forwarded? <==> ControllerRespondsTo(s, n, false)
    ensures r.Forwarded? <==> s.current.Some? && Resolve(s.current.value, n).Some?
    ensures r.Forwarded? ==> r.result == Invoke(host, s.current.value, n)
  {
    if s.current.Some? then
      RespondToMatchesDispatch(s.current.value, n);
      if RespondTo(s.current.value, n, false) then Forwarded(Invoke(host, s.current.value, n)) else FallThrough
    else
      FallThrough
  }

  /**
    A forwarded call never fails for lack of a method: it runs the method of the
    layer dispatch lands on.
   */
  lemma ForwardedCallRuns(host: Host, s: ControllerState, n: string)
    requires ControllerMethodMissing(host, s, n).Forwarded?
    ensures ControllerMethodMissing(host, s, n).result
            == Run(host, Ancestor(s.current.value, Resolve(s.current.value, n).value), n)
  {
    InvokeResolves(host, s.current.value, n);
  }
}
