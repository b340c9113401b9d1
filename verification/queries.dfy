/**
  The instance-level queries of a context: its class chain, the transitive
  view-helper test and the method-ownership map behind `whereis`.
 */
module Queries {
  import opened Wrappers
  import opened Chain
  import opened Declarations

  /**
    `context_class_chain`: the class names from the root down to this layer.
    The name of the layer `k` steps up sits `k` places from the end.
   */
  function ClassChain(l: Layer): (r: seq<string>)
    ensures |r| == Depth(l)
    ensures forall k :: 0 <= k < Depth(l) ==> r[Depth(l) - 1 - k] == Ancestor(l, k).cls.name
  {
    if l.parent.None? then [l.cls.name] else ClassChain(l.parent.value) + [l.cls.name]
  }

  /** The chain depends on the classes alone, never on field values. */
  lemma {:induction false} SameShapeClassChain(a: Layer, b: Layer)
    requires SameShape(a, b)
    ensures ClassChain(a) == ClassChain(b)
  {
    if a.parent.Some? {
      SameShapeClassChain(a.parent.value, b.parent.value);
    }
  }

  /**
    Instance-level `has_view_helper?`: this layer's class declares the name, or
    the parent (when present) answers true.
   */
  predicate HasViewHelper(l: Layer, n: MethodName)
  {
    ClassHasViewHelper(l.cls, n) || (l.parent.Some? && HasViewHelper(l.parent.value, n))
  }

  /** The class at height `k` declares `n` as a view helper. */
  predicate HelperAt(l: Layer, k: nat, n: MethodName)
    requires k < Depth(l)
  {
    ClassHasViewHelper(Ancestor(l, k).cls, n)
  }

  /** The helper holds exactly when some class from this layer up to the root declares it. */
  lemma {:induction false} HasViewHelperAnywhere(l: Layer, n: MethodName)
    ensures HasViewHelper(l, n) <==> exists k :: 0 <= k < Depth(l) && HelperAt(l, k, n)
  {
    if ClassHasViewHelper(l.cls, n) {
      assert HelperAt(l, 0, n);
    }
    if l.parent.Some? {
      var p := l.parent.value;
      HasViewHelperAnywhere(p, n);
      if HasViewHelper(p, n) {
        var k :| 0 <= k < Depth(p) && HelperAt(p, k, n);
        assert Ancestor(l, k + 1) == Ancestor(p, k);
        assert HelperAt(l, k + 1, n);
      }
      if exists k :: 0 <= k < Depth(l) && HelperAt(l, k, n) {
        var k :| 0 <= k < Depth(l) && HelperAt(l, k, n);
        if k > 0 {
          assert Ancestor(l, k) == Ancestor(p, k - 1);
          assert HelperAt(p, k - 1, n);
        }
      }
    } else {
      if exists k :: 0 <= k < Depth(l) && HelperAt(l, k, n) {
        var k :| 0 <= k < Depth(l) && HelperAt(l, k, n);
        assert k == 0;
      }
    }
  }

  /** `to_sym` normalisation: a string and a symbol with the same text give the same answer. */
  lemma HasViewHelperIgnoresSpelling(l: Layer, s: string)
    ensures HasViewHelper(l, Str(s)) == HasViewHelper(l, Sym(s))
  {
  }

  /** Chains of the same shape agree on every view helper. */
  lemma {:induction false} SameShapeHasViewHelper(a: Layer, b: Layer, n: MethodName)
    requires SameShape(a, b)
    ensures HasViewHelper(a, n) == HasViewHelper(b, n)
  {
    if a.parent.Some? {
      SameShapeHasViewHelper(a.parent.value, b.parent.value, n);
    }
  }

  /** `get_context_method_mapping`: each public method the class defines itself, mapped to the class name. */
  function OwnMapping(c: ClassDesc): (m: map<string, string>)
    ensures m.Keys == c.ownPublic
    ensures forall n :: n in m ==> m[n] == c.name
  {
    map n | n in c.ownPublic :: c.name
  }

  /**
    `context_method_mapping`: the parent's mapping (empty at the root) merged with
    this layer's own mapping, whose entries win.
   */
  function Mapping(l: Layer): (m: map<string, string>)
    ensures forall n :: n in l.cls.ownPublic ==> n in m && m[n] == l.cls.name
  {
    (if l.parent.None? then map[] else Mapping(l.parent.value)) + OwnMapping(l.cls)
  }

  /** The class at height `k` publicly defines `n` itself. */
  predicate OwnsAt(l: Layer, k: nat, n: string)
    requires k < Depth(l)
  {
    n in Ancestor(l, k).cls.ownPublic
  }

  /**
    The mapping has an entry for `n` exactly when some class in the chain publicly
    defines `n` itself.
   */
  lemma {:induction false} MappingKeys(l: Layer, n: string)
    ensures n in Mapping(l) <==> exists k :: 0 <= k < Depth(l) && OwnsAt(l, k, n)
  {
    if n in l.cls.ownPublic {
      assert OwnsAt(l, 0, n);
    }
    if l.parent.Some? {
      var p := l.parent.value;
      MappingKeys(p, n);
      if n in Mapping(p) {
        var k :| 0 <= k < Depth(p) && OwnsAt(p, k, n);
        assert Ancestor(l, k + 1) == Ancestor(p, k);
        assert OwnsAt(l, k + 1, n);
      }
      if exists k :: 0 <= k < Depth(l) && OwnsAt(l, k, n) {
        var k :| 0 <= k < Depth(l) && OwnsAt(l, k, n);
        if k > 0 {
          assert Ancestor(l, k) == Ancestor(p, k - 1);
          assert OwnsAt(p, k - 1, n);
        }
      }
    } else {
      if exists k :: 0 <= k < Depth(l) && OwnsAt(l, k, n) {
        var k :| 0 <= k < Depth(l) && OwnsAt(l, k, n);
        assert k == 0;
      }
    }
  }

  /**
    Precedence: the entry for `n` names the nearest class, from this layer up,
    that publicly defines `n` itself. A descendant's definition shadows an
    ancestor's, and every ancestor entry that is not redefined survives.
   */
  lemma {:induction false} MappingNearestOwner(l: Layer, n: string, k: nat)
    requires k < Depth(l)
    requires OwnsAt(l, k, n)
    requires forall j :: 0 <= j < k ==> !OwnsAt(l, j, n)
    ensures n in Mapping(l) && Mapping(l)[n] == Ancestor(l, k).cls.name
  {
    if k > 0 {
      var p := l.parent.value;
      assert !OwnsAt(l, 0, n);
      forall j | 0 <= j < k - 1
        ensures !OwnsAt(p, j, n)
      {
        assert Ancestor(l, j + 1) == Ancestor(p, j);
        assert !OwnsAt(l, j + 1, n);
      }
      MappingNearestOwner(p, n, k - 1);
    }
  }

  /** Chains of the same shape have the same mapping. */
  lemma {:induction false} SameShapeMapping(a: Layer, b: Layer)
    requires SameShape(a, b)
    ensures Mapping(a) == Mapping(b)
  {
    if a.parent.Some? {
      SameShapeMapping(a.parent.value, b.parent.value);
    }
  }

  /** `whereis(n)`: the mapping entry for `n.to_sym`, nil when there is none. */
  function Whereis(l: Layer, n: MethodName): (r: Option<string>)
    ensures r.Some? <==> ToSym(n) in Mapping(l)
  {
    var key := ToSym(n);
    if key in Mapping(l) then Some(Mapping(l)[key]) else None
  }

  /** `whereis(n)` is nil exactly when no class in the chain publicly defines `n` itself. */
  lemma WhereisNil(l: Layer, n: MethodName)
    ensures Whereis(l, n).None? <==> forall k :: 0 <= k < Depth(l) ==> !OwnsAt(l, k, ToSym(n))
  {
    MappingKeys(l, ToSym(n));
  }

  /** `whereis(n)` names the nearest class, from this layer up, that publicly defines `n` itself. */
  lemma WhereisNearest(l: Layer, n: MethodName, k: nat)
    requires k < Depth(l)
    requires OwnsAt(l, k, ToSym(n))
    requires forall j :: 0 <= j < k ==> !OwnsAt(l, j, ToSym(n))
    ensures Whereis(l, n) == Some(Ancestor(l, k).cls.name)
  {
    MappingNearestOwner(l, ToSym(n), k);
  }
}
