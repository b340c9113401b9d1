/**
  Class-level declarations of a context class: the `view_helpers` list and its
  class-level query `has_view_helper?`.
 */
module Declarations {
  import opened Wrappers
  import opened Chain

  /**
    Class-level `has_view_helper?`: the list must have been created by some
    `view_helpers` call and must hold the name after `to_sym`.
   */
  predicate ClassHasViewHelper(c: ClassDesc, n: MethodName)
  {
    c.viewHelpers.Some? && ToSym(n) in c.viewHelpers.value
  }

  /** `method_names.map(&:to_sym)`. */
  function Symbols(names: seq<MethodName>): (r: seq<string>)
    ensures |r| == |names|
    ensures forall i :: 0 <= i < |names| ==> r[i] == ToSym(names[i])
  {
    if names == [] then [] else [ToSym(names[0])] + Symbols(names[1..])
  }

  /**
    `view_helpers(*names)`: creates the class's list when it is still nil and
    appends the names, so repeated calls accumulate. Nothing else about the class
    changes; in particular the list belongs to this class alone and a subclass
    does not see it.
   */
  function ViewHelpers(c: ClassDesc, names: seq<MethodName>): (r: ClassDesc)
    ensures r.viewHelpers.Some?
    ensures |r.viewHelpers.value| >= |names|
    ensures r.viewHelpers.value[..|r.viewHelpers.value| - |names|]
            == (if c.viewHelpers.Some? then c.viewHelpers.value else [])
    ensures r == c.(viewHelpers := r.viewHelpers)
  {
    var prior := if c.viewHelpers.Some? then c.viewHelpers.value else [];
    var r := c.(viewHelpers := Some(prior + Symbols(names)));
    assert (prior + Symbols(names))[..|prior|] == prior;
    r
  }

  /**
    After `view_helpers(*names)` the class answers `has_view_helper?(n)` exactly
    when it did before or `n` is one of the new names, whether `n` is given as a
    string or a symbol.
   */
  lemma ViewHelpersDeclares(c: ClassDesc, names: seq<MethodName>, n: MethodName)
    ensures ClassHasViewHelper(ViewHelpers(c, names), n)
            <==> ClassHasViewHelper(c, n) || exists i :: 0 <= i < |names| && ToSym(names[i]) == ToSym(n)
  {
    var prior := if c.viewHelpers.Some? then c.viewHelpers.value else [];
    var list := prior + Symbols(names);
    assert ViewHelpers(c, names).viewHelpers.value == list;
    if ClassHasViewHelper(ViewHelpers(c, names), n) {
      var j :| 0 <= j < |list| && list[j] == ToSym(n);
      if j >= |prior| {
        assert ToSym(names[j - |prior|]) == ToSym(n);
      }
    }
    if exists i :: 0 <= i < |names| && ToSym(names[i]) == ToSym(n) {
      var i :| 0 <= i < |names| && ToSym(names[i]) == ToSym(n);
      assert list[|prior| + i] == ToSym(n);
    }
  }
}
