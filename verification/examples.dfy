/**
  The context classes of the library's behaviour examples, with the outcomes
  those examples expect derived from the model, followed by a small decoration
  example (`GreetRoot` and its wrappers) that the library's examples do not have.
 */
module SpecExamples {
  import opened Wrappers
  import opened Chain
  import opened Declarations
  import opened Queries
  import opened Dispatch
  import opened Binding
  import opened ContextController
  import opened Decoration

  /**
    `TestContext`: view helpers `method1` and `method2`, a public accessor `foo`,
    public `method1`..`method3`, a protected accessor `bar1` and protected and
    private methods.
   */
  function TestContext(): ClassDesc
  {
    var own := {"method1", "method2", "method3", "foo", "foo="};
    ClassDesc(
      "TestContext", BaseContextMethods + own, own,
      BaseContextClass.privateMethods + {"bar1", "bar1=", "protected_method", "private_method"},
      Some(["method1", "method2"]),
      map["foo" := AttrReader("foo"), "foo=" := AttrWriter("foo"),
          "bar1" := AttrReader("bar1"), "bar1=" := AttrWriter("bar1"),
          "method1" := Code("'method1'"), "method2" := Code("'method2'"), "method3" := Code("'method3'")])
  }

  /** The helper list of `TestContext` is what `view_helpers :method1, :method2` makes of an empty declaration. */
  lemma TestContextDeclaresHelpers()
    ensures TestContext() == ViewHelpers(TestContext().(viewHelpers := None), [Sym("method1"), Sym("method2")])
  {
    var names := [Sym("method1"), Sym("method2")];
    assert Symbols(names) == [ToSym(names[0])] + Symbols(names[1..]);
    assert Symbols(names[1..]) == [ToSym(names[1])] + Symbols(names[2..]);
    assert Symbols(names) == ["method1", "method2"];
  }

  /** `TestContext2`: a public accessor `blah`. */
  function TestContext2(): ClassDesc
  {
    ClassDesc("TestContext2", BaseContextMethods + {"blah", "blah="}, {"blah", "blah="},
              BaseContextClass.privateMethods, None,
              map["blah" := AttrReader("blah"), "blah=" := AttrWriter("blah")])
  }

  /** `TestContext3`: nothing of its own. */
  function TestContext3(): ClassDesc
  {
    ClassDesc("TestContext3", BaseContextMethods, {}, BaseContextClass.privateMethods, None, map[])
  }

  /** `TestContext.new(foo: 1)`, wrapped by `TestContext2` and then by `TestContext3`. */
  function ContextA(): Layer
  {
    Layer(TestContext(), None, map["foo" := Int(1)])
  }

  function ContextB(): Layer
  {
    Layer(TestContext2(), Some(ContextA()), map[])
  }

  function ContextC(): Layer
  {
    Layer(TestContext3(), Some(ContextB()), map[])
  }

  /** Which of the names the examples use each class answers publicly. */
  lemma PublicSurface()
    ensures "foo=" in TestContext().publicMethods && "foo" in TestContext().publicMethods
    ensures "method3" in TestContext().publicMethods
    ensures "bar1=" !in TestContext().publicMethods
    ensures "protected_method" !in TestContext().publicMethods && "private_method" !in TestContext().publicMethods
    ensures forall n :: n in {"foo", "foo=", "method3", "protected_method", "private_method"} ==>
              n !in TestContext2().publicMethods && n !in TestContext3().publicMethods
  {
    assert "bar1=" !in BaseContextMethods;
    assert "protected_method" !in BaseContextMethods && "private_method" !in BaseContextMethods;
    forall n | n in {"foo", "foo=", "method3", "protected_method", "private_method"}
      ensures n !in BaseContextMethods
    {
    }
  }

  /** `TestContext.new(foo: 1)` builds exactly `ContextA()`. */
  lemma NewBindsPublicAccessor()
    ensures New(TestContext(), [("foo", Int(1))]) == Done(ContextA())
  {
    var l := Layer(TestContext(), None, map[]);
    PublicSurface();
    assert "foo" + "=" == "foo=";
    assert Resolve(l, "foo=") == Some(0);
    assert BodyOf(TestContext(), "foo=") == AttrWriter("foo");
    assert Bind(l, [("foo", Int(1))]) == Bind(SetField(l, 0, "foo", Int(1)), []);
  }

  /**
    A protected setter counts as unknown, and so does `bar2`, which no class of
    the chain defines (`instance_eval("bar2 = 1")` only assigns a local variable).
   */
  lemma NewRejectsProtectedSetter()
    ensures New(TestContext(), [("bar1", Int(1))]).error == ArgumentError("unknown attribute: bar1")
    ensures New(TestContext(), [("bar2", Int(1))]).error == ArgumentError("unknown attribute: bar2")
  {
    var l := Layer(TestContext(), None, map[]);
    PublicSurface();
    assert "bar1" + "=" == "bar1=";
    assert Resolve(l, "bar1=").None?;
    BindStopsAtUnknown(l, [("bar1", Int(1))], 0);
    assert "bar2" + "=" == "bar2=";
    assert "bar2=" !in BaseContextMethods;
    assert Resolve(l, "bar2=").None?;
    BindStopsAtUnknown(l, [("bar2", Int(1))], 0);
  }

  /** `TestContext2.wrap(contextA, blah: 1)` answers `blah` with 1 and has `contextA` as its parent. */
  lemma WrapBindsOwnAttribute(host: Host)
    ensures Wrap(TestContext2(), Some(Layer(TestContext(), None, map[])), [("blah", Int(1))])
            == Done(Layer(TestContext2(), Some(Layer(TestContext(), None, map[])), map["blah" := Int(1)]))
    ensures Invoke(host, Layer(TestContext2(), Some(Layer(TestContext(), None, map[])), map["blah" := Int(1)]), "blah")
            == Ok(Int(1))
  {
    var l := Layer(TestContext2(), Some(Layer(TestContext(), None, map[])), map[]);
    assert "blah" + "=" == "blah=";
    assert Resolve(l, "blah=") == Some(0);
    assert BodyOf(TestContext2(), "blah=") == AttrWriter("blah");
    assert Bind(l, [("blah", Int(1))]) == Bind(SetField(l, 0, "blah", Int(1)), []);
    assert BodyOf(TestContext2(), "blah") == AttrReader("blah");
  }

  /**
    `instance`, `instance2 = TestContext2.wrap(instance)` and
    `instance3 = TestContext3.wrap(instance2)` are the three layers above, and
    their class chains grow in wrapping order.
   */
  lemma ClassChainsInWrapOrder()
    ensures Wrap(TestContext2(), Some(ContextA()), []) == Done(ContextB())
    ensures Wrap(TestContext3(), Some(ContextB()), []) == Done(ContextC())
    ensures ClassChain(ContextA()) == ["TestContext"]
    ensures ClassChain(ContextB()) == ["TestContext", "TestContext2"]
    ensures ClassChain(ContextC()) == ["TestContext", "TestContext2", "TestContext3"]
  {
  }

  /** The class-level query: declared helpers by symbol or string, and not the undeclared public `method3`. */
  lemma ClassLevelHelpers()
    ensures ClassHasViewHelper(TestContext(), Sym("method1")) && ClassHasViewHelper(TestContext(), Str("method2"))
    ensures !ClassHasViewHelper(TestContext(), Sym("method3"))
  {
    assert TestContext().viewHelpers.value == ["method1", "method2"];
  }

  /** Declared helpers are visible from every descendant, undeclared public methods from none. */
  lemma HelpersThroughTheChain()
    ensures HasViewHelper(ContextA(), Sym("method1")) && HasViewHelper(ContextA(), Str("method2"))
    ensures !HasViewHelper(ContextA(), Sym("method3"))
    ensures HasViewHelper(ContextB(), Sym("method1")) && HasViewHelper(ContextB(), Str("method2"))
    ensures HasViewHelper(ContextC(), Sym("method1")) && HasViewHelper(ContextC(), Str("method2"))
  {
    assert TestContext().viewHelpers.value == ["method1", "method2"];
  }

  /** A public method is reached from a grand-wrapped context. */
  lemma PublicMethodThroughWrappers(host: Host)
    ensures Invoke(host, ContextC(), "method3") == Ok(host.eval(ContextA(), "'method3'"))
  {
    PublicSurface();
    assert "method3" !in TestContext3().publicMethods;
    assert Invoke(host, ContextC(), "method3") == Invoke(host, ContextB(), "method3");
    assert Invoke(host, ContextB(), "method3") == Invoke(host, ContextA(), "method3");
    assert BodyOf(TestContext(), "method3") == Code("'method3'");
  }

  /** A parent's attribute is read through the wrapper. */
  lemma ParentAttributeThroughWrapper(host: Host)
    ensures Invoke(host, ContextB(), "foo") == Ok(Int(1))
  {
    PublicSurface();
    assert "foo" !in TestContext2().publicMethods;
    assert Invoke(host, ContextB(), "foo") == Invoke(host, ContextA(), "foo");
    assert BodyOf(TestContext(), "foo") == AttrReader("foo");
  }

  /** Protected and private methods of the parent raise NoMethodError through the wrapper. */
  lemma NonPublicMethodsUnreachable(host: Host)
    ensures Invoke(host, ContextB(), "protected_method") == Err(NoMethodError("protected_method"))
    ensures Invoke(host, ContextB(), "private_method") == Err(NoMethodError("private_method"))
  {
    PublicSurface();
    assert "protected_method" !in TestContext2().publicMethods;
    assert "private_method" !in TestContext2().publicMethods;
  }

  /** `TestContext2.wrap(contextA, foo: 1)` stores `foo` on `contextA`. */
  lemma WrapSetsParentFoo()
    ensures Wrap(TestContext2(), Some(Layer(TestContext(), None, map[])), [("foo", Int(1))]).Done?
    ensures FieldAt(Wrap(TestContext2(), Some(Layer(TestContext(), None, map[])), [("foo", Int(1))]).layer, 1, "foo")
            == Some(Int(1))
  {
    var p := Layer(TestContext(), None, map[]);
    PublicSurface();
    assert "foo" + "=" == "foo=";
    assert "foo=" !in TestContext2().publicMethods;
    assert Resolve(p, "foo=") == Some(0);
    assert BodyOf(TestContext(), "foo=") == AttrWriter("foo");
    assert WritableAttr(p, "foo");
    WrapSetsAncestorAttribute(TestContext2(), p, "foo", Int(1));
  }

  /** A root `R` whose public `greet` gives "hi". */
  function GreetRoot(): Layer
  {
    Layer(ClassDesc("R", BaseContextMethods + {"greet"}, {"greet"}, BaseContextClass.privateMethods, None,
                    map["greet" := Code("'hi'")]),
          None, map[])
  }

  /** `C` wraps `R` and adds nothing. */
  function GreetChild(): Layer
  {
    Layer(ClassDesc("C", BaseContextMethods, {}, BaseContextClass.privateMethods, None, map[]),
          Some(GreetRoot()), map[])
  }

  /** `G` wraps `C` and decorates `greet` with the decorator class `Upcase`. */
  function GreetGrandchild(): Layer
  {
    var g := ClassDesc("G", BaseContextMethods, {}, BaseContextClass.privateMethods, None, map[]);
    Layer(Decorate(g, "greet", "Upcase", []), Some(GreetChild()), map[])
  }

  /**
    `C` answers `greet` with the root's value and reports `R` as its owner; `G`
    answers with the decorator wrapping exactly that value and owns the name;
    `C` is unaffected by its descendant's decoration.
   */
  lemma GreetDecorationExample(host: Host)
    ensures Invoke(host, GreetChild(), "greet") == Ok(host.eval(GreetRoot(), "'hi'"))
    ensures Whereis(GreetChild(), Sym("greet")) == Some("R")
    ensures Invoke(host, GreetGrandchild(), "greet") == Ok(host.construct("Upcase", [host.eval(GreetRoot(), "'hi'")]))
    ensures Whereis(GreetGrandchild(), Sym("greet")) == Some("G")
  {
    assert "greet" !in BaseContextMethods;
    assert Invoke(host, GreetChild(), "greet") == Invoke(host, GreetRoot(), "greet");
    var g := ClassDesc("G", BaseContextMethods, {}, BaseContextClass.privateMethods, None, map[]);
    DecoratedCall(host, GreetGrandchild(), g, "greet", "Upcase", []);
    assert [host.eval(GreetRoot(), "'hi'")] + EvalArgs(host, GreetGrandchild(), []) == [host.eval(GreetRoot(), "'hi'")];
  }
}
