/**
  Construction of a context: `initialize` binds the attributes through public
  setters, and `wrap` builds a layer on top of a parent.
 */
module Binding {
  import opened Wrappers
  import opened Chain
  import opened Queries
  import opened Dispatch

  /**
    The outcome of binding attributes. On failure the layer is the state reached
    when the error was raised: assignments already made are not undone, and an
    ancestor changed by them stays changed for everyone holding it.
   */
  datatype Bound = Done(layer: Layer) | Failed(layer: Layer, error: Error)

  /**
    `public_send(setter, v)` once dispatch has landed on the layer `k` steps up:
    an `attr_writer` stores the value; other custom code runs opaquely and leaves
    the fields as they were; a method taking no argument raises ArgumentError.
   */
  function Assign(l: Layer, k: nat, setter: string, v: Value): (r: Result<Layer, Error>)
    requires k < Depth(l)
    ensures r.Ok? ==> SameShape(l, r.value)
    ensures BodyOf(Ancestor(l, k).cls, setter).AttrWriter? ==>
              r.Ok? && FieldAt(r.value, k, BodyOf(Ancestor(l, k).cls, setter).field) == Some(v)
  {
    match BodyOf(Ancestor(l, k).cls, setter)
    case AttrWriter(f) => Ok(SetField(l, k, f, v))
    case Code(_) => SameShapeRefl(l); Ok(l)
    case _ => Err(ArgumentError("wrong number of arguments (given 1, expected 0)"))
  }

  /**
    `initialize(attributes)`: for each key in order, when the layer responds to
    the public setter `key=` (found by dispatch, possibly on an ancestor) the
    value is sent to it; the first key without one raises
    ArgumentError "unknown attribute: key".
   */
  function Bind(l: Layer, attrs: seq<(string, Value)>): (r: Bound)
    ensures SameShape(l, r.layer)
    decreases |attrs|
  {
    if attrs == [] then SameShapeRefl(l); Done(l)
    else
      var (key, v) := attrs[0];
      RespondToMatchesDispatch(l, key + "=");
      if !RespondTo(l, key + "=", false) then
        SameShapeRefl(l);
        Failed(l, ArgumentError("unknown attribute: " + key))
      else
        match Assign(l, Resolve(l, key + "=").value, key + "=", v)
        case Err(e) =>
          SameShapeRefl(l);
          Failed(l, e)
        case Ok(l1) =>
          var r := Bind(l1, attrs[1..]);
          SameShapeTrans(l, l1, r.layer);
          r
  }

  /** The height of the layer that receives `key=`. */
  function SetterDepth(l: Layer, key: string): nat
    requires Resolve(l, key + "=").Some?
  {
    Resolve(l, key + "=").value
  }

  /** `key=` is public somewhere in the chain and is the `attr_writer` of field `key`. */
  predicate WritableAttr(l: Layer, key: string)
  {
    && Resolve(l, key + "=").Some?
    && BodyOf(Ancestor(l, SetterDepth(l, key)).cls, key + "=") == AttrWriter(key)
  }

  /** Some key of `attrs` is `f` and its setter lands at height `k`. */
  predicate Targets(l: Layer, attrs: seq<(string, Value)>, k: nat, f: string)
  {
    && (exists i :: 0 <= i < |attrs| && attrs[i].0 == f)
    && Resolve(l, f + "=") == Some(k)
  }

  /** The keys of a Ruby hash are distinct. */
  predicate DistinctKeys(attrs: seq<(string, Value)>)
  {
    forall i, j :: 0 <= i < j < |attrs| ==> attrs[i].0 != attrs[j].0
  }

  lemma SameShapeWritable(a: Layer, b: Layer, key: string)
    requires SameShape(a, b)
    ensures Resolve(a, key + "=") == Resolve(b, key + "=")
    ensures WritableAttr(a, key) == WritableAttr(b, key)
  {
    SameShapeResolve(a, b, key + "=");
    if Resolve(a, key + "=").Some? {
      SameShapeClasses(a, b, SetterDepth(a, key));
    }
  }

  /**
    When every key names a public attribute writer somewhere in the chain, binding
    succeeds, each key's field on the layer that owns its setter holds the key's
    value, and every other field of every layer is unchanged.
   */
  lemma {:induction false} BindAllKnown(l: Layer, attrs: seq<(string, Value)>)
    requires DistinctKeys(attrs)
    requires forall i :: 0 <= i < |attrs| ==> WritableAttr(l, attrs[i].0)
    ensures Bind(l, attrs).Done?
    ensures Depth(Bind(l, attrs).layer) == Depth(l)
    ensures forall i :: 0 <= i < |attrs| ==>
              WritableAttr(l, attrs[i].0) &&
              FieldAt(Bind(l, attrs).layer, SetterDepth(l, attrs[i].0), attrs[i].0) == Some(attrs[i].1)
    ensures forall k, f :: 0 <= k < Depth(l) && !Targets(l, attrs, k, f) ==>
              FieldAt(Bind(l, attrs).layer, k, f) == FieldAt(l, k, f)
    decreases |attrs|
  {
    if attrs != [] {
      var (key, v) := attrs[0];
      var rest := attrs[1..];
      RespondToMatchesDispatch(l, key + "=");
      var d := SetterDepth(l, key);
      var l1 := SetField(l, d, key, v);
      assert Bind(l, attrs) == Bind(l1, rest);
      forall i | 0 <= i < |rest|
        ensures WritableAttr(l1, rest[i].0) && SetterDepth(l1, rest[i].0) == SetterDepth(l, rest[i].0)
      {
        assert rest[i] == attrs[i + 1];
        SameShapeWritable(l, l1, rest[i].0);
      }
      BindAllKnown(l1, rest);
      var r := Bind(l1, rest).layer;
      forall i | 0 <= i < |rest|
        ensures rest[i].0 != key
      {
        assert rest[i] == attrs[i + 1];
      }
      assert !Targets(l1, rest, d, key);
      forall i | 0 <= i < |attrs|
        ensures FieldAt(r, SetterDepth(l, attrs[i].0), attrs[i].0) == Some(attrs[i].1)
      {
        if i > 0 {
          assert rest[i - 1] == attrs[i];
        }
      }
      forall k, f | 0 <= k < Depth(l) && !Targets(l, attrs, k, f)
        ensures FieldAt(r, k, f) == FieldAt(l, k, f)
      {
        SameShapeResolve(l, l1, f + "=");
        forall i | 0 <= i < |rest|
          ensures rest[i] == attrs[i + 1]
        {
        }
      }
    }
  }

  /**
    When the keys before position `i` bind without error, whatever setters they
    reach, and the key at `i` has no public setter anywhere in the chain,
    binding raises ArgumentError "unknown attribute: key" for that key, and the
    state it leaves is exactly the state after binding the keys before it.
   */
  lemma {:induction false} BindStopsAtUnknown(l: Layer, attrs: seq<(string, Value)>, i: nat)
    requires i < |attrs|
    requires Bind(l, attrs[..i]).Done?
    requires Resolve(l, attrs[i].0 + "=").None?
    ensures Bind(l, attrs) == Failed(Bind(l, attrs[..i]).layer, ArgumentError("unknown attribute: " + attrs[i].0))
    decreases i
  {
    RespondToMatchesDispatch(l, attrs[0].0 + "=");
    if i > 0 {
      var (key, v) := attrs[0];
      var rest := attrs[1..];
      assert attrs[..i][0] == attrs[0] && attrs[..i][1..] == rest[..i - 1];
      assert rest[i - 1] == attrs[i];
      var l1 := Assign(l, Resolve(l, key + "=").value, key + "=", v).value;
      assert Bind(l, attrs) == Bind(l1, rest);
      assert Bind(l, attrs[..i]) == Bind(l1, rest[..i - 1]);
      SameShapeResolve(l, l1, rest[i - 1].0 + "=");
      BindStopsAtUnknown(l1, rest, i - 1);
    }
  }

  /**
    Binding changes fields only: whether it succeeds or raises, the chain it
    leaves gives the same class chain, the same `has_view_helper?` and `whereis`
    answers and the same dispatch target for every name as the chain it started
    from.
   */
  lemma BindKeepsAnswers(l: Layer, attrs: seq<(string, Value)>, n: MethodName)
    ensures ClassChain(Bind(l, attrs).layer) == ClassChain(l)
    ensures HasViewHelper(Bind(l, attrs).layer, n) == HasViewHelper(l, n)
    ensures Whereis(Bind(l, attrs).layer, n) == Whereis(l, n)
    ensures Resolve(Bind(l, attrs).layer, ToSym(n)) == Resolve(l, ToSym(n))
  {
    var r := Bind(l, attrs).layer;
    SameShapeClassChain(l, r);
    SameShapeHasViewHelper(l, r, n);
    SameShapeMapping(l, r);
    SameShapeResolve(l, r, ToSym(n));
  }

  /**
    A Ruby hash may hold a symbol key and a string key with the same text; both
    reach the same setter, and the later assignment is the one that stays.
   */
  lemma DuplicateKeyLastWins(l: Layer, key: string, v1: Value, v2: Value)
    requires WritableAttr(l, key)
    ensures Bind(l, [(key, v1), (key, v2)]).Done?
    ensures FieldAt(Bind(l, [(key, v1), (key, v2)]).layer, SetterDepth(l, key), key) == Some(v2)
  {
    var d := SetterDepth(l, key);
    RespondToMatchesDispatch(l, key + "=");
    var l1 := SetField(l, d, key, v1);
    SameShapeWritable(l, l1, key);
    assert Bind(l, [(key, v1), (key, v2)]) == Bind(l1, [(key, v2)]);
    BindAllKnown(l1, [(key, v2)]);
  }

  /** `new(attributes)` for a root context: a blank layer of class `cls` without a parent. */
  function New(cls: ClassDesc, attrs: seq<(string, Value)>): (r: Bound)
    ensures r.layer.cls == cls && r.layer.parent.None?
    ensures ClassChain(r.layer) == [cls.name]
  {
    Bind(Layer(cls, None, map[]), attrs)
  }

  /**
    `wrap(parent, **args)`: `parent_context` is set first, then the remaining
    attributes are bound, so a key may name a setter that only an ancestor has.
    The result is a layer of class `cls` whose parent is `parent` (with any
    fields the binding assigned there) and whose class chain is the parent's
    chain with `cls`'s name appended.
   */
  function Wrap(cls: ClassDesc, parent: Option<Layer>, args: seq<(string, Value)>): (r: Bound)
    requires forall i :: 0 <= i < |args| ==> args[i].0 != "parent_context"
    ensures r.layer.cls == cls
    ensures r.layer.parent.Some? == parent.Some?
    ensures parent.Some? ==> SameShape(parent.value, r.layer.parent.value)
    ensures ClassChain(r.layer) == (if parent.Some? then ClassChain(parent.value) else []) + [cls.name]
  {
    var r := Bind(Layer(cls, parent, map[]), args);
    if parent.Some? then
      SameShapeClassChain(parent.value, r.layer.parent.value);
      r
    else
      r
  }

  /**
    A key whose setter only the parent chain has is stored on the ancestor that
    owns it, as seen through the new layer's parent.
   */
  lemma WrapSetsAncestorAttribute(cls: ClassDesc, p: Layer, key: string, v: Value)
    requires key != "parent_context"
    requires key + "=" !in cls.publicMethods
    requires WritableAttr(p, key)
    ensures Wrap(cls, Some(p), [(key, v)]).Done?
    ensures FieldAt(Wrap(cls, Some(p), [(key, v)]).layer.parent.value, SetterDepth(p, key), key) == Some(v)
  {
    var l := Layer(cls, Some(p), map[]);
    var d := SetterDepth(p, key);
    assert Resolve(l, key + "=") == Some(d + 1);
    assert Ancestor(l, d + 1) == Ancestor(p, d);
    assert WritableAttr(l, key);
    BindAllKnown(l, [(key, v)]);
  }
}
