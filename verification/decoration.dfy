/**
  The `decorate` class macro: it defines a public method that wraps the value
  the parent context gives for the same name in a decorator object.
 */
module Decoration {
  import opened Wrappers
  import opened Chain
  import opened Queries
  import opened Dispatch

  /**
    `decorate(op, decorator:, args:)`: the class gains a public method `op` of its
    own, implemented by the decoration; every other method, the name and the
    view-helper list are untouched.
   */
  function Decorate(c: ClassDesc, op: string, decorator: string, args: seq<string>): (r: ClassDesc)
    ensures op in r.publicMethods && op in r.ownPublic && op !in r.privateMethods
    ensures BodyOf(r, op) == Decorated(decorator, args)
    ensures r.name == c.name && r.viewHelpers == c.viewHelpers
    ensures forall n :: n != op ==>
              && BodyOf(r, n) == BodyOf(c, n)
              && (n in r.publicMethods <==> n in c.publicMethods)
              && (n in r.ownPublic <==> n in c.ownPublic)
              && (n in r.privateMethods <==> n in c.privateMethods)
  {
    c.(publicMethods := c.publicMethods + {op},
       ownPublic := c.ownPublic + {op},
       privateMethods := c.privateMethods - {op},
       bodies := c.bodies[op := Decorated(decorator, args)])
  }

  /** `whereis(op)` on a layer of the decorating class names that class. */
  lemma DecorationOwnsName(l: Layer, c: ClassDesc, op: string, decorator: string, args: seq<string>)
    requires l.cls == Decorate(c, op, decorator, args)
    ensures Whereis(l, Sym(op)) == Some(c.name)
  {
  }

  /**
    Calling the decorated method on a layer whose parent gives `v` for `op`
    returns the decorator built from `v` and the arguments evaluated against the
    layer, in declared order; a parent that raises makes the call raise the same.
   */
  lemma DecoratedCall(host: Host, l: Layer, c: ClassDesc, op: string, decorator: string, args: seq<string>)
    requires l.cls == Decorate(c, op, decorator, args)
    requires l.parent.Some?
    ensures Invoke(host, l.parent.value, op).Ok? ==>
              Invoke(host, l, op) == Ok(host.construct(decorator, [Invoke(host, l.parent.value, op).value] + EvalArgs(host, l, args)))
    ensures Invoke(host, l.parent.value, op).Err? ==> Invoke(host, l, op) == Invoke(host, l.parent.value, op)
  {
  }

  /** A decorated method on a root layer has no parent to ask and raises NoMethodError. */
  lemma DecoratedRootRaises(host: Host, l: Layer, c: ClassDesc, op: string, decorator: string, args: seq<string>)
    requires l.cls == Decorate(c, op, decorator, args)
    requires l.parent.None?
    ensures Invoke(host, l, op) == Err(NoMethodError(op))
  {
  }

  /**
    A descendant that does not answer `op` publicly itself gives, by plain
    delegation, exactly what its parent gives, so a decoration carries down the
    chain without any extra code.
   */
  lemma DecorationCascades(host: Host, m: Layer, op: string)
    requires m.parent.Some?
    requires op !in m.cls.publicMethods
    ensures Invoke(host, m, op) == Invoke(host, m.parent.value, op)
  {
  }
}
