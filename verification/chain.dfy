/**
  The data model of a context chain: class descriptors, layers linked through
  their parent, and the structural operations every other module builds on.
 */
module Chain {
  import opened Wrappers

  /** A method name as a caller may pass it: a Ruby symbol or a string. */
  datatype MethodName = Sym(text: string) | Str(text: string)

  /** `to_sym`: strings and symbols with the same text name the same method. */
  function ToSym(n: MethodName): string
  {
    n.text
  }

  /** The values stored in fields and returned by calls; the engine never inspects them. */
  datatype Value = Nil | Int(n: int) | Text(s: string) | Instance(className: string, args: seq<Value>)

  /** The exceptions the core raises. */
  datatype Error =
    | ArgumentError(message: string)
    | NoMethodError(name: string)
    | NameError(message: string)

  /** How a method is implemented. */
  datatype Body =
    | AttrReader(field: string)                         // `attr_reader`: returns the field, nil when unset
    | AttrWriter(field: string)                         // `attr_writer`: stores its one argument in the field
    | Code(source: string)                              // any other Ruby method, opaque to the model
    | Decorated(decorator: string, args: seq<string>)   // a method defined by `decorate`

  /**
    A context class: its name, every public instance method it answers (own and
    inherited), the public methods it defines itself (`public_instance_methods(false)`),
    its protected and private methods, its class-level `@view_helpers` list (nil
    until `view_helpers` is first called) and the bodies of its methods.
   */
  datatype ClassDesc = ClassDesc(
    name: string,
    publicMethods: set<string>,
    ownPublic: set<string>,
    privateMethods: set<string>,
    viewHelpers: Option<seq<string>>,
    bodies: map<string, Body>)

  /**
    What Ruby guarantees of every class: a method it defines itself is one it
    answers, and no method is both public and non-public.
   */
  predicate ValidClass(c: ClassDesc)
  {
    c.ownPublic <= c.publicMethods && c.publicMethods !! c.privateMethods
  }

  /** A context instance: its class, its `parent_context` (nil for a root) and its instance variables. */
  datatype Layer = Layer(cls: ClassDesc, parent: Option<Layer>, fields: map<string, Value>)

  /**
    What the model leaves to Ruby: `instance_eval` of a source string against a
    layer, and the constructor `new` of a decorator class given its arguments.
   */
  datatype Host = Host(eval: (Layer, string) -> Value, construct: (string, seq<Value>) -> Value)

  /** The body of method `n` of class `c`; a method with no recorded body is opaque code. */
  function BodyOf(c: ClassDesc, n: string): Body
  {
    if n in c.bodies then c.bodies[n] else Code(n)
  }

  /** Number of layers from this one up to the root, both included. */
  function Depth(l: Layer): (d: nat)
    ensures d >= 1
    ensures l.parent.None? <==> d == 1
  {
    if l.parent.None? then 1 else 1 + Depth(l.parent.value)
  }

  /** The layer `k` parent-steps above `l` (`Ancestor(l, 0) == l`). */
  function Ancestor(l: Layer, k: nat): (a: Layer)
    requires k < Depth(l)
    ensures Depth(a) == Depth(l) - k
  {
    if k == 0 then l else Ancestor(l.parent.value, k - 1)
  }

  /** The instance variable `f` of the layer `k` steps up, or nil when it was never set. */
  function FieldAt(l: Layer, k: nat, f: string): (r: Option<Value>)
    requires k < Depth(l)
    ensures k > 0 ==> r == FieldAt(l.parent.value, k - 1, f)
  {
    var fs := Ancestor(l, k).fields;
    if f in fs then Some(fs[f]) else None
  }

  /** Every class from this layer up to the root is a class Ruby can produce. */
  predicate ValidChain(l: Layer)
  {
    ValidClass(l.cls) && (l.parent.Some? ==> ValidChain(l.parent.value))
  }

  lemma {:induction false} ValidAncestor(l: Layer, k: nat)
    requires ValidChain(l) && k < Depth(l)
    ensures ValidClass(Ancestor(l, k).cls)
  {
    if k > 0 {
      ValidAncestor(l.parent.value, k - 1);
    }
  }

  /** Two chains with the same classes in the same order; their fields may differ. */
  predicate SameShape(a: Layer, b: Layer)
    ensures SameShape(a, b) ==> Depth(a) == Depth(b)
  {
    && a.cls == b.cls
    && a.parent.Some? == b.parent.Some?
    && (a.parent.Some? ==> SameShape(a.parent.value, b.parent.value))
  }

  lemma {:induction false} SameShapeRefl(a: Layer)
    ensures SameShape(a, a)
  {
    if a.parent.Some? {
      SameShapeRefl(a.parent.value);
    }
  }

  lemma {:induction false} SameShapeTrans(a: Layer, b: Layer, c: Layer)
    requires SameShape(a, b) && SameShape(b, c)
    ensures SameShape(a, c)
  {
    if a.parent.Some? {
      SameShapeTrans(a.parent.value, b.parent.value, c.parent.value);
    }
  }

  /** Chains of the same shape have the same class at every height. */
  lemma {:induction false} SameShapeClasses(a: Layer, b: Layer, k: nat)
    requires SameShape(a, b) && k < Depth(a)
    ensures Ancestor(a, k).cls == Ancestor(b, k).cls
    ensures Ancestor(a, k).parent.Some? == Ancestor(b, k).parent.Some?
  {
    if k > 0 {
      SameShapeClasses(a.parent.value, b.parent.value, k - 1);
    }
  }

  /**
    Assigns instance variable `f` of the layer `k` steps up. Ruby objects are shared,
    so a setter run on an ancestor is seen by every chain that holds that ancestor;
    here the chain is rebuilt with that one layer changed.
   */
  function SetField(l: Layer, k: nat, f: string, v: Value): (r: Layer)
    requires k < Depth(l)
    ensures SameShape(l, r)
    ensures Depth(r) == Depth(l)
    ensures FieldAt(r, k, f) == Some(v)
    ensures forall j, g :: 0 <= j < Depth(l) && (j != k || g != f) ==> FieldAt(r, j, g) == FieldAt(l, j, g)
  {
    if k == 0 then
      SameShapeRefl(l);
      l.(fields := l.fields[f := v])
    else
      l.(parent := Some(SetField(l.parent.value, k - 1, f, v)))
  }
}
