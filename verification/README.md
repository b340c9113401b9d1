# context-pattern: a Dafny model of the context chain

This project models the core of the Ruby gem `context-pattern`: a chain of
context objects, each with an optional `parent_context`, where a call a context
cannot answer itself is delegated up the chain. The model covers:

- `Context::BaseContext`: attribute binding in `initialize`, `wrap`,
  `context_class_chain`, the class-level and instance-level `has_view_helper?`,
  the `view_helpers` and `decorate` class macros, `context_method_mapping` with
  `whereis`, and delegated dispatch through `method_missing` and
  `respond_to_missing?`;
- `Context::Controller`: the controller's current context, reset by
  `__set_base_context` and extended by `extend_context`, and its forwarding
  `method_missing` and `respond_to_missing?`;
- `Context::BaseContextHelper`: the view's helper-gated `method_missing` and
  `respond_to_missing?`.

A context is an immutable `Layer` (class descriptor, optional parent, field
map). A class descriptor lists the public methods the class answers, the public
methods it defines itself, its protected and private methods, its
`@view_helpers` list and its method bodies. Exceptions become values of
`Result` (ArgumentError, NoMethodError, NameError). Ruby objects are shared, so
a setter that lands on an ancestor changes that ancestor for every holder. The
model rebuilds the chain with that one layer changed (`Chain.SetField`).
`Binding.Bind` returns the state reached even when it raises, because
assignments made before the error are not undone.

Modules: `Wrappers` (Option, Result), `Chain` (data model), `Declarations`
(`view_helpers`), `Queries` (class chain, helpers, method mapping, `whereis`),
`Dispatch` (`public_send` through the chain, `respond_to?`), `Decoration`
(`decorate`), `Binding` (`initialize`, `wrap`), `ContextController`,
`ViewHelperAdapter` and `SpecExamples` (the example contexts of
`spec/base_context_spec.rb` with the outcomes that file expects, plus a small
decoration example of the model's own).

Points of the code the model keeps as they are:

- `decorate` defines the method without checking whether the class or an
  ancestor already defines it, and it has no option to cache the result;
- an unknown attribute raises `ArgumentError "unknown attribute: k"`;
- `parent_context=` is public, so a context can be re-parented after its caches
  were filled. The model's queries are pure functions of an immutable chain,
  which assumes no re-parenting.

Classes are plain descriptors, so a descriptor Ruby could not produce can be
written down. `Chain.ValidClass` states what Ruby guarantees (a method a class
defines itself is one it answers; no method is both public and non-public),
and the lemmas that relate `whereis` to dispatch require it.

## Model

| member | source | states |
|---|---|---|
| Declarations.ViewHelpersDeclares | lib/context/base_context.rb:21-28 | after `view_helpers(*names)` the class-level `has_view_helper?(n)` holds iff it held before or `n.to_sym` is one of the names; repeated calls accumulate |
| Declarations.ViewHelpers | lib/context/base_context.rb:25-28 | the list is created on first use, the old list stays a prefix of the new one, and nothing else about the class changes |
| Queries.ClassChain | lib/context/base_context.rb:46-49 | the chain has one name per layer, root first; the class name of the layer k steps up sits k places from the end |
| Queries.SameShapeClassChain | lib/context/base_context.rb:46-49 | the class chain depends only on the classes in the chain, never on field values |
| Queries.HasViewHelperAnywhere | lib/context/base_context.rb:51-55 | instance `has_view_helper?(n)` holds iff the class of some layer from this one up to the root declares `n` (both directions) |
| Queries.HasViewHelperIgnoresSpelling | lib/context/base_context.rb:21-23 | a string and a symbol with the same text give the same answer |
| Queries.OwnMapping | lib/context/base_context.rb:81-85 | the own mapping has exactly the class's own public methods as keys, each mapped to the class name |
| Queries.Mapping | lib/context/base_context.rb:57-61 | every public method the layer's class defines itself maps to that class's name |
| Queries.MappingKeys | lib/context/base_context.rb:57-61 | the mapping has an entry for `n` iff some class in the chain publicly defines `n` itself |
| Queries.MappingNearestOwner | lib/context/base_context.rb:57-61 | the entry for `n` names the nearest class, from this layer up, that defines `n`; own entries shadow parent entries, and parent entries not redefined survive |
| Queries.Whereis | lib/context/base_context.rb:75-77 | `whereis(n)` is present iff `n.to_sym` is a key of the mapping |
| Queries.WhereisNil | lib/context/base_context.rb:75-77 | `whereis(n)` is nil iff no class in the chain publicly defines `n.to_sym` itself |
| Queries.WhereisNearest | lib/context/base_context.rb:75-77 | `whereis(n)` names the nearest class, from this layer up, that publicly defines `n.to_sym` itself |
| Dispatch.Resolve | lib/context/base_context.rb:63-69 | a dispatch target is a layer of the chain whose class answers `n` publicly |
| Dispatch.ResolveNearest | lib/context/base_context.rb:63-69 | dispatch lands at height k iff the class there answers `n` publicly and no nearer class does; protected and private methods are passed over |
| Dispatch.ResolveNone | lib/context/base_context.rb:63-69 | dispatch fails iff no class from this layer up to the root answers `n` publicly |
| Dispatch.InvokeResolves | lib/context/base_context.rb:63-69 | a call raises NoMethodError when dispatch finds nothing, and otherwise runs the method of the layer dispatch lands on |
| Dispatch.RespondToMatchesDispatch | lib/context/base_context.rb:71-73 | `respond_to?(n)` without private methods holds iff dispatch of `n` finds a layer |
| Dispatch.RespondToPrivateIsWider | lib/context/base_context.rb:71-73 | with `include_private`, `respond_to?` accepts everything dispatch reaches and also a method the parent defines only privately; when no class answers that name publicly, dispatch finds nothing while `respond_to?(n, true)` holds |
| Dispatch.WhereisDispatches | lib/context/base_context.rb:57-77 | in a chain of well-formed classes, a name `whereis` reports is one a call reaches, and the call lands no higher than any class that defines the name itself |
| Dispatch.SameShapeResolve | lib/context/base_context.rb:63-69 | dispatch depends only on the classes in the chain, so binding attributes never changes where a call lands |
| Decoration.Decorate | lib/context/base_context.rb:12-19 | `decorate` gives the class a public method of its own implemented by the decoration and leaves every other method, the name and the helpers alone |
| Decoration.DecorationOwnsName | lib/context/base_context.rb:13 | on a layer of the decorating class, `whereis` of the decorated name is that class |
| Decoration.DecoratedCall | lib/context/base_context.rb:13-18 | a call of the decorated method asks the parent once for the same name and returns the decorator built from the parent's value followed by the arguments evaluated against the layer in declared order; a parent's error passes through unchanged |
| Decoration.DecoratedRootRaises | lib/context/base_context.rb:15 | a decorated method on a context without a parent raises NoMethodError |
| Decoration.DecorationCascades | lib/context/base_context.rb:63-69 | a descendant that does not answer the name itself gives exactly its parent's value, so a decoration carries down the chain |
| Binding.Assign | lib/context/base_context.rb:40 | a setter that is an `attr_writer` stores the value on the layer dispatch landed on, and the chain keeps its shape |
| Binding.Bind | lib/context/base_context.rb:37-44 | binding, whether it succeeds or raises, leaves the classes of the chain unchanged |
| Binding.BindAllKnown | lib/context/base_context.rb:37-44 | when the keys are distinct and every key has a public attribute writer in the chain, binding succeeds, each key's field on the layer owning its setter holds its value, and every other field is unchanged |
| Binding.BindKeepsAnswers | lib/context/base_context.rb:37-77 | binding, whether it succeeds or raises, leaves the class chain, every `has_view_helper?` and `whereis` answer, and every dispatch target as they were |
| Binding.DuplicateKeyLastWins | lib/context/base_context.rb:37-44 | two entries with the same key text both reach the same `attr_writer`, binding succeeds and the later value is the one stored |
| Binding.BindStopsAtUnknown | lib/context/base_context.rb:37-44 | when the earlier keys bind without error, whatever public setters they reach, the first key without a public setter raises ArgumentError "unknown attribute: k", and the state left is exactly the state after binding the earlier keys |
| Binding.New | lib/context/base_context.rb:37-44 | `new` builds a root of the given class whose class chain is that class's name alone |
| Binding.Wrap | lib/context/base_context.rb:30-32 | `wrap` returns a layer of the class whose parent is the given context, with the parent's chain plus the class name as its class chain |
| Binding.WrapSetsAncestorAttribute | lib/context/base_context.rb:30-32 | because the parent is set first, a key whose setter only an ancestor has is stored on that ancestor |
| ContextController.SetBaseContext | lib/context/controller.rb:12-14 | the current context becomes a fresh, well-formed root `Context::BaseContext` with no parent, no fields and no view helpers, whose `whereis` knows exactly the base class's own public methods |
| ContextController.ExtendContext | lib/context/controller.rb:7-10 | a missing class raises NameError and leaves the state alone; success makes a layer of that class the current one, whose parent is the old context with the same classes in the same order; a binding error keeps the old chain |
| ContextController.ExtendKeepsOldAnswers | lib/context/controller.rb:7-10 | after a successful `extend_context` the new layer's parent gives the old context's class chain, `has_view_helper?` and `whereis` answers and dispatch targets |
| ContextController.ExtendStoresKnownAttributes | lib/context/controller.rb:9 | when every attribute names a distinct public attribute writer of the new chain, `extend_context` succeeds and each value is stored on the layer owning its setter |
| ContextController.ExtendGrowsChain | lib/context/controller.rb:7-10 | a successful `extend_context(c)` grows the class chain by exactly `"#{c}Context"` |
| ContextController.ExtendRejectsUnknownAttribute | lib/context/controller.rb:9 | when the earlier attributes bind without error, an attribute without a public setter makes `extend_context` raise ArgumentError naming it, and the current context is not replaced |
| ContextController.ControllerMethodMissing | lib/context/controller.rb:18-28 | the controller forwards a call iff its `respond_to_missing?` holds, that is iff dispatch in the current context finds the method |
| ContextController.ForwardedCallRuns | lib/context/controller.rb:18-24 | a forwarded call runs the method of the layer dispatch lands on |
| ViewHelperAdapter.HelperMethodMissing | lib/context/base_context_helper.rb:3-9 | the view forwards `n` iff there is a context and some class in its chain declares `n` as a view helper; the forwarded call is ordinary chain dispatch |
| ViewHelperAdapter.HelperRespondToMissing | lib/context/base_context_helper.rb:11-13 | as written: raises NoMethodError when there is no context, and otherwise answers the chain's `has_view_helper?` |
| ViewHelperAdapter.RespondToMissingRaisesWithoutContext | lib/context/base_context_helper.rb:3-13 | with no context, `method_missing` falls through while `respond_to_missing?` raises |
| ViewHelperAdapter.HelperRespondsTo | lib/context/base_context_helper.rb:11-13 | with the nil guard, the view responds to `n` iff its `method_missing` forwards `n`, and it agrees with the unguarded version whenever there is a context |
| ViewHelperAdapter.UndeclaredMethodHidden | lib/context/base_context_helper.rb:4 | a public context method that no class in the chain declares as a helper is not reachable through the view, although dispatch resolves it |
| ViewHelperAdapter.AncestorHelperReachable | lib/context/base_context_helper.rb:4-5 | a helper declared on any ancestor's class is reachable from a descendant's view through ordinary dispatch |
| SpecExamples.TestContextDeclaresHelpers | spec/base_context_spec.rb:3-5 | the example class's helper list is what `view_helpers :method1, :method2` makes of a class with none |
| SpecExamples.NewBindsPublicAccessor | spec/base_context_spec.rb:45-48 | `TestContext.new(foo: 1)` stores `foo` |
| SpecExamples.NewRejectsProtectedSetter | spec/base_context_spec.rb:50-62 | a protected setter counts as an unknown attribute, and so does `bar2`, which no class defines |
| SpecExamples.ClassLevelHelpers | spec/base_context_spec.rb:65-76 | the class-level `has_view_helper?` holds for `:method1` and `'method2'` and not for the undeclared public `method3` |
| SpecExamples.WrapBindsOwnAttribute | spec/base_context_spec.rb:89-94 | `TestContext2.wrap(contextA, blah: 1)` stores `blah` on the new layer, whose parent is `contextA`, and answers it with 1 |
| SpecExamples.ClassChainsInWrapOrder | spec/base_context_spec.rb:112-124 | `wrap` builds `instance2` and `instance3` from `instance`, and their class chains list the wrapped classes in wrapping order |
| SpecExamples.HelpersThroughTheChain | spec/base_context_spec.rb:127-150 | declared helpers are visible from `instance`, `instance2` and `instance3`, by symbol and by string; the undeclared public `method3` is not a helper |
| SpecExamples.PublicMethodThroughWrappers | spec/base_context_spec.rb:158-164 | a public method of the root is reached from a grand-wrapped context |
| SpecExamples.ParentAttributeThroughWrapper | spec/base_context_spec.rb:96-101 | a parent's attribute is read through the wrapper |
| SpecExamples.NonPublicMethodsUnreachable | spec/base_context_spec.rb:166-182 | protected and private methods of the parent raise NoMethodError through the wrapper |
| SpecExamples.GreetDecorationExample | lib/context/base_context.rb:12-19 | with `R` giving "hi", a plain wrapper `C` answers "hi" and reports `R` as owner, while a decorating grandchild `G` answers the decorator wrapping exactly that value, owns the name, and leaves `C` unaffected |
| SpecExamples.WrapSetsParentFoo | spec/base_context_spec.rb:103-109 | `TestContext2.wrap(contextA, foo: 1)` stores `foo` on `contextA` |

## Left out

- `lib/context/railtie.rb`: Rails initializer plumbing that mixes URL helpers into the base class.
- `delegate :link_to` and the `Memoizer` includes: calls into other libraries. `link_to` appears only as a name among the base class's public methods.
- Override-collision checking and memoized decoration: the code has neither.
- Ruby's method lookup: each class lists its public, own public and non-public methods as explicit sets. The base class's own public methods are taken to be `link_to`, `parent_context`, `parent_context=`, `context_class_chain`, `has_view_helper?`, `context_method_mapping`, `method_missing` and `whereis`. Methods every Ruby object inherits from `Object` and `Kernel` (`to_s`, `inspect`, `respond_to?`, …) are not listed, so calling one of them on a context is a NoMethodError in the model but not in Ruby.
- `instance_eval` and decorator construction: both are opaque functions of a `Host` value. Evaluation is treated as pure, so side effects of argument expressions are not modelled. They also always return a value, so opaque code never raises in the model. In Ruby, an exception from a method body, a decorator argument expression, a decorator constructor or a custom setter passes through unchanged, because the core rescues nothing.
- Blocks and variadic arguments: calls are modelled with no arguments (`Invoke`), and setters with one argument (`Assign`).
- Binding.Assign: a custom (non-`attr_writer`) setter runs opaque code; its effect on fields is not modelled, and the state is left unchanged.
- Binding.Bind: a `parent_context` key is bound like any other key. `parent_context=` has no recorded body, so it runs as opaque code and leaves the chain unchanged. In Ruby it replaces the layer's parent, so the ensures that the classes of the chain stay the same does not hold for such a key.
- Binding.New: the same `parent_context` gap. `new(parent_context: p)` gives a layer whose parent is `p` in Ruby, but in the model it is a root.
- Binding.BindAllKnown: requires distinct key texts. A Ruby hash can repeat a text as a symbol key and a string key. The general "last occurrence wins" is not proved; only the two-entry case is (`Binding.DuplicateKeyLastWins`).
- Binding.Wrap: requires that no attribute is named `parent_context`. In Ruby such a key would replace the supplied parent.
- ContextController.ExtendContext: the same `parent_context` restriction as `wrap`.
- Object identity: Ruby objects are shared, but layers are values. A setter that lands on an ancestor changes the copy of that ancestor inside the returned chain. A reference the caller kept to the ancestor is not changed. The example in spec/base_context_spec.rb:103-109 also expects `contextA.foo == 1` on the caller's own `contextA`. The model states this only for the parent inside the new chain (`SpecExamples.WrapSetsParentFoo`).
- `present?` and `try`: the parent is treated as present whenever it is non-nil. In Ruby, a context whose chain answered `empty?` with a truthy value would count as blank.
- nil's own methods: with no current context the controller never forwards. A decorated method at a root raises NoMethodError whatever the name, even for names nil itself answers.
- The `||=` caches: chain and mapping are pure functions of an immutable chain. Re-parenting through the public `parent_context=` after caching is not modelled.
- `prepend_before_action` registration: the reset is a function the caller applies.
- `constantize`: a finite registry from constant names to classes. A missing name raises NameError.
- `decorate` is taken to define a public method. Arity errors are ArgumentError with Ruby's usual message.

## Findings

| source | as written | input that shows it | evidently intended | confidence | as-written member | corrected member |
|---|---|---|---|---|---|---|
| lib/context/base_context_helper.rb:11-13 | `respond_to_missing?` sends `has_view_helper?` to the context without checking that one is set | a view with no context, asked whether it responds to any name it does not define | answer false, matching the nil guard `method_missing` has on line 4 | medium, not executed | ViewHelperAdapter.HelperRespondToMissing | ViewHelperAdapter.HelperRespondsTo |
