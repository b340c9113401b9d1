/**
  Delegated dispatch: a call a layer cannot answer publicly is sent on to its
  parent with `public_send` (`method_missing`), and `respond_to?` follows the
  same walk (`respond_to_missing?`).
 */
module Dispatch {
  import opened Wrappers
  import opened Chain
  import opened Queries

  /** The class at height `k` answers `n` publicly. */
  predicate PublicAt(l: Layer, k: nat, n: string)
    requires k < Depth(l)
  {
    n in Ancestor(l, k).cls.publicMethods
  }

  /**
    What an adapter's `method_missing` does with a name: forward it to the context
    (with the call's outcome), or fall through to `super`, which raises NoMethodError.
   */
  datatype Forward = Forwarded(result: Result<Value, Error>) | FallThrough

  /**
    The height of the layer that `public_send(n)` reaches: this layer when its
    class answers `n` publicly, otherwise wherever the parent's dispatch lands,
    and nowhere once the root is passed.
   */
  function Resolve(l: Layer, n: string): (r: Option<nat>)
    ensures r.Some? ==> r.value < Depth(l) && PublicAt(l, r.value, n)
  {
    if n in l.cls.publicMethods then Some(0)
    else if l.parent.None? then None
    else match Resolve(l.parent.value, n)
      case None => None
      case Some(k) => Some(k + 1)
  }

  /**
    Dispatch lands on the nearest layer, from this one up, whose class answers
    `n` publicly; protected and private definitions on the way are passed over.
   */
  lemma {:induction false} ResolveNearest(l: Layer, n: string, k: nat)
    ensures Resolve(l, n) == Some(k)
            <==> k < Depth(l) && PublicAt(l, k, n) && forall j :: 0 <= j < k ==> !PublicAt(l, j, n)
  {
    assert Ancestor(l, 0) == l;
    if l.parent.Some? && k > 0 {
      var p := l.parent.value;
      ResolveNearest(p, n, k - 1);
      if k < Depth(l) {
        assert Ancestor(l, k) == Ancestor(p, k - 1);
        if forall j :: 0 <= j < k - 1 ==> !PublicAt(p, j, n) {
          forall j | 0 <= j < k
            ensures n !in l.cls.publicMethods ==> !PublicAt(l, j, n)
          {
            if j > 0 {
              assert Ancestor(l, j) == Ancestor(p, j - 1);
              assert !PublicAt(p, j - 1, n);
            }
          }
        }
        if forall j :: 0 <= j < k ==> !PublicAt(l, j, n) {
          assert !PublicAt(l, 0, n);
          forall j | 0 <= j < k - 1
            ensures !PublicAt(p, j, n)
          {
            assert Ancestor(l, j + 1) == Ancestor(p, j);
            assert !PublicAt(l, j + 1, n);
          }
        }
      }
    }
  }

  /** Dispatch fails exactly when no class from this layer up to the root answers `n` publicly. */
  lemma {:induction false} ResolveNone(l: Layer, n: string)
    ensures Resolve(l, n).None? <==> forall k :: 0 <= k < Depth(l) ==> !PublicAt(l, k, n)
  {
    assert Ancestor(l, 0) == l;
    if l.parent.Some? {
      var p := l.parent.value;
      ResolveNone(p, n);
      forall k | 0 < k < Depth(l)
        ensures PublicAt(l, k, n) == PublicAt(p, k - 1, n)
      {
        assert Ancestor(l, k) == Ancestor(p, k - 1);
      }
      if Resolve(l, n).Some? {
        var k := Resolve(l, n).value;
        assert PublicAt(l, k, n);
      } else {
        forall k | 0 <= k < Depth(l)
          ensures !PublicAt(l, k, n)
        {
          if k > 0 {
            assert !PublicAt(p, k - 1, n);
          }
        }
      }
    }
  }

  /** Chains of the same shape dispatch every name to the same height. */
  lemma {:induction false} SameShapeResolve(a: Layer, b: Layer, n: string)
    requires SameShape(a, b)
    ensures Resolve(a, n) == Resolve(b, n)
  {
    if a.parent.Some? {
      SameShapeResolve(a.parent.value, b.parent.value, n);
    }
  }

  /**
    `respond_to?(n, include_private)`: the class answers `n` (publicly, or at all
    when private methods are included), or else `respond_to_missing?` asks the
    parent with the same flag; a root without a parent gives nil, read as false.
   */
  predicate RespondTo(l: Layer, n: string, includePrivate: bool)
  {
    || n in l.cls.publicMethods
    || (includePrivate && n in l.cls.privateMethods)
    || (l.parent.Some? && RespondTo(l.parent.value, n, includePrivate))
  }

  /** Without private methods, `respond_to?` is true exactly when dispatch would find the method. */
  lemma {:induction false} RespondToMatchesDispatch(l: Layer, n: string)
    ensures RespondTo(l, n, false) <==> Resolve(l, n).Some?
  {
    if l.parent.Some? {
      RespondToMatchesDispatch(l.parent.value, n);
    }
  }

  /**
    With private methods included, `respond_to?` accepts everything dispatch
    reaches, and also a method that an ancestor defines only privately, which
    dispatch never reaches.
   */
  lemma {:induction false} RespondToPrivateIsWider(l: Layer, n: string)
    ensures RespondTo(l, n, false) ==> RespondTo(l, n, true)
    ensures l.parent.Some? && n in l.parent.value.cls.privateMethods ==> RespondTo(l, n, true)
    ensures (forall k :: 0 <= k < Depth(l) ==> !PublicAt(l, k, n))
            && l.parent.Some? && n in l.parent.value.cls.privateMethods
            ==> Resolve(l, n).None? && RespondTo(l, n, true)
  {
    ResolveNone(l, n);
    if l.parent.Some? {
      RespondToPrivateIsWider(l.parent.value, n);
    }
  }

  /** The values of a decorator's argument expressions, each evaluated against `self`, in declared order. */
  function EvalArgs(host: Host, self: Layer, args: seq<string>): (vs: seq<Value>)
    ensures |vs| == |args|
    ensures forall i :: 0 <= i < |args| ==> vs[i] == host.eval(self, args[i])
  {
    seq(|args|, i requires 0 <= i < |args| => host.eval(self, args[i]))
  }

  /**
    A call of `n` with no arguments, as `public_send(n)` makes it: run this
    layer's public method, else hand the call to the parent, else NoMethodError.
   */
  function Invoke(host: Host, l: Layer, n: string): Result<Value, Error>
    decreases l, 1
  {
    if n in l.cls.publicMethods then Run(host, l, n)
    else if l.parent.Some? then Invoke(host, l.parent.value, n)
    else Err(NoMethodError(n))
  }

  /**
    Runs the method `n` defined on `self`'s class with no arguments. A decorated
    method sends `n` to the parent once, evaluates its argument expressions
    against `self`, and builds the decorator from the parent's value followed by
    those arguments. Without a parent the inner `public_send` is sent to nil.
   */
  function Run(host: Host, self: Layer, n: string): Result<Value, Error>
    decreases self, 0
  {
    match BodyOf(self.cls, n)
    case AttrReader(f) => Ok(if f in self.fields then self.fields[f] else Nil)
    case AttrWriter(_) => Err(ArgumentError("wrong number of arguments (given 0, expected 1)"))
    case Code(src) => Ok(host.eval(self, src))
    case Decorated(decorator, args) =>
      if self.parent.None? then Err(NoMethodError(n))
      else match Invoke(host, self.parent.value, n)
        case Err(e) => Err(e)
        case Ok(v) => Ok(host.construct(decorator, [v] + EvalArgs(host, self, args)))
  }

  /**
    A call runs the method of the layer dispatch lands on and raises
    NoMethodError when dispatch finds none.
   */
  lemma {:induction false} InvokeResolves(host: Host, l: Layer, n: string)
    ensures Resolve(l, n).None? ==> Invoke(host, l, n) == Err(NoMethodError(n))
    ensures Resolve(l, n).Some? ==> Invoke(host, l, n) == Run(host, Ancestor(l, Resolve(l, n).value), n)
  {
    if n !in l.cls.publicMethods && l.parent.Some? {
      InvokeResolves(host, l.parent.value, n);
    }
  }

  /**
    In a chain of well-formed classes, a name `whereis` reports is one dispatch
    finds, and the call lands no higher than any class that defines it itself.
   */
  lemma WhereisDispatches(l: Layer, n: MethodName)
    requires ValidChain(l)
    requires Whereis(l, n).Some?
    ensures Resolve(l, ToSym(n)).Some?
    ensures forall k :: 0 <= k < Depth(l) && OwnsAt(l, k, ToSym(n)) ==> Resolve(l, ToSym(n)).value <= k
  {
    var key := ToSym(n);
    MappingKeys(l, key);
    var k0 :| 0 <= k0 < Depth(l) && OwnsAt(l, k0, key);
    ValidAncestor(l, k0);
    assert PublicAt(l, k0, key);
    ResolveNone(l, key);
    forall k | 0 <= k < Depth(l) && OwnsAt(l, k, key)
      ensures Resolve(l, key).value <= k
    {
      ValidAncestor(l, k);
      assert PublicAt(l, k, key);
      ResolveNearest(l, key, Resolve(l, key).value);
    }
  }
}
