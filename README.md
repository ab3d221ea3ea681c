# swift-di, modelled in Dafny

swift-di is a dependency-injection library for Swift. Components are structs marked
`@Component`. Their members marked `@Provides(key, priority:)` register providers. The
`@Component` macro generates each component's `providingMetadata` table, its
`requirements` and its `initContainer(parent:)` wiring.

At run time, every component owns a `Container`. When a child is built from its parent,
the child copies the parent's container and merges its own table on top of it. A key
present in both goes to the entry with the higher priority, and a tie goes to the child.
Looking a key up runs the provider on the most-derived instance of the component type
that declared it, so a provider an ancestor declares reads whatever a descendant
overrides.

The project models two parts of the library.

**The resolution engine (`Sources/DI`):**
- `priority.dfy`: `Priority` and its order.
- `key.dfy`: keys compared by object identity.
- `container.dfy`:
  - `ComponentProvidingMetadata.setter`;
  - `Container.combine`, `setFixed` and `get`;
  - the merge rule in closed form, as the function `Merged`;
  - lookup along a chain of component instances, as the function `Resolve`.
- `requirements.dfy`: `assertRequirements` and its message.
- `components.dfy`: a component owning a container and its chain of ancestors.
- `component_tests.dfy`: the components and every expected outcome of
  `Tests/DITests/ComponentTests.swift`.

**The macro plugin's rules (`Sources/DIMacros`), over an abstract expression tree (`syntax.dfy`):**
- `extract_key.dfy`: key normalisation, key order, `extractKey` and `GetCallVisitor`.
- `utils.dfy`: `funcNameSafe`.
- `component_macro.dfy`: the decisions of the `@Component` member expansion:
  - `extractProvides`;
  - the required keys and their sorting;
  - the missing-`initContainer` fix-it;
  - `CallArgumentsVisitor` and its fix-it text;
  - the root diagnostic.
- `call_arguments_tests.dfy`: the cases of `Tests/DIMacrosTests/CallArgumentsVisitorTests.swift`.

How the Swift constructs become Dafny:
- Swift erases the owner type of a provider and recovers it with a runtime type test.
  The model stores the owner as an explicit `TypeTag`.
- A provider body is a small expression language: a literal, a stored field of the
  instance it runs on, a nested `get`, and string concatenation.
- A nested `get` is resolved against the caller's table and the caller's full chain.
- The `preconditionFailure`s of `get` become `Err` values.
- `assertRequirements` traps in a debug build and is compiled out in a release build. The
  model's `initContainer(parent:)` takes that choice as a parameter: with assertions
  enabled a failing check stops construction, and without them the child is built anyway.

## Model

| member | source | states |
|---|---|---|
| Priorities.Default | Sources/DI/Priority.swift:8-10 | `.default` has raw value 0 |
| Priorities.Test | Sources/DI/Priority.swift:12-14 | `.test` has raw value 10 and is above `.default` |
| Priorities.Custom | Sources/DI/Priority.swift:16-18 | `.custom(n)` has raw value `n` |
| Priorities.AtMostIsRawOrder | Sources/DI/Priority.swift:4-6 | the `<=` derived from `Priority.<` is `<=` on raw values |
| Priorities.LessIsStrictTotalOrder | Sources/DI/Priority.swift:4-6 | `<` is irreflexive, asymmetric and transitive, and any two distinct priorities are ordered |
| Priorities.AtMostIsTotalOrder | Sources/DI/Priority.swift:4-6 | `<=` is reflexive, transitive and total, and is antisymmetric |
| Priorities.CustomOrder | Sources/DI/Priority.swift:16-18 | `custom(a) < custom(b)` exactly when `a < b` |
| Keys.AnyKey.Plain | Sources/DI/Key.swift:2-3 | a plain `AnyKey` has the class `AnyKey` |
| Keys.AnyKey.Typed | Sources/DI/Key.swift:15-21 | both initializers of `Key<Instance>` give a key whose class is `Key<Instance>`; the type argument plays no other role |
| Keys.Equal | Sources/DI/Key.swift:9-12 | two keys are equal exactly when they are the same object; the class test is implied by identity |
| Keys.NewKeys | Sources/DI/Key.swift:15-17 | two keys created for the same value type have the same class, yet are different slots |
| Containers.MergeRule | Sources/DI/Container.swift:66-76 | after a merge, the key set is the union of both key sets. A key only in the incoming table is inserted, and a key only in the existing table is untouched. On a clash, the incoming entry wins when the existing priority is at most its own, and loses when the existing priority is strictly higher |
| Containers.MergeNeverLowersPriority | Sources/DI/Container.swift:68-71 | a merge never lowers the priority held under a key |
| Containers.MergeIdempotent | Sources/DI/Container.swift:66-76 | merging the same table twice is the same as merging it once |
| Containers.LaterTableWinsTies | Sources/DI/Container.swift:68-71 | merging a parent's table and then a child's: the child's entry wins when its priority is at least the parent's, and otherwise the parent's entry stays |
| Containers.SetFixedRule | Sources/DI/Container.swift:79-91 | `setFixed` writes the fixed entry unless the key already holds a strictly higher priority, in which case nothing changes |
| Containers.MergeStep | Sources/DI/Container.swift:67-75 | one iteration of `combine`'s loop applies the merge rule to one more incoming key |
| Containers.Restrict | Sources/DI/Container.swift:67 | the part of a table over a set of keys holds exactly those of its entries |
| Containers.ProvidingMetadata.constructor | Sources/DI/Container.swift:2-5 | a new metadata table is empty and owned by its component type |
| Containers.ProvidingMetadata.Set | Sources/DI/Container.swift:15-23 | the setter stores a computed entry owned by the table's type, with the given priority, under the key. A second registration of the same key replaces the first, and the table stays owned by one type |
| Containers.Container.constructor | Sources/DI/Container.swift:54-58 | a new container holds no entries |
| Containers.Container.Combine | Sources/DI/Container.swift:65-76 | the loop leaves the container holding exactly `Merged(old table, incoming table)` |
| Containers.Container.SetFixed | Sources/DI/Container.swift:78-91 | the container afterwards holds the merge of its old table with the single fixed entry |
| Containers.Container.Get | Sources/DI/Container.swift:94-125 | a lookup succeeds only for a key the container holds, fails with "container is empty" on an empty container, and gives the stored value of a fixed entry |
| Containers.Resolve | Sources/DI/Container.swift:98-125 | success implies the key is in the table; an absent key fails, with "container is empty" exactly when the table is empty |
| Containers.Eval | Sources/DI/Container.swift:105-118 | a literal provider gives its value; a nested `get` with no fuel left is cut off; a concatenation that succeeds gives a string |
| Containers.LastOfType | Sources/DI/Container.swift:114-118 | the reversed scan finds the last chain element of the owner type: it has that type and no later element does. It finds nothing exactly when no element has the type |
| Containers.TypesOf | Sources/DI/Container.swift:123 | the failure message lists the type of every chain element, in order |
| Containers.AbsentKeyFails | Sources/DI/Container.swift:98-104 | looking up an absent key fails. The failure is "container is empty" exactly when the table is empty, and "not found" for that key otherwise |
| Containers.FixedResolvesToValue | Sources/DI/Container.swift:120-122 | a fixed entry resolves to its stored value, whatever the chain |
| Containers.ComputedRunsOnMostDerivedOwner | Sources/DI/Container.swift:107-118 | a computed entry runs its provider on the most-derived chain element of its owner type |
| Containers.ComputedWithoutOwnerFails | Sources/DI/Container.swift:123 | a computed entry whose owner type is not in the chain is a fatal failure naming the type and the chain's types |
| Containers.NestedGetUsesCallersTable | Sources/DI/Container.swift:105-118 | a provider that reads another key resolves it against the same table and the same full chain |
| Containers.ResolveFuelMonotone | Sources/DI/Container.swift:94-125 | a lookup that did not run out of fuel gives the same answer with more fuel, so the fuel bound only cuts off nesting |
| Requirements.MessageFor | Sources/DI/assertRequirements.swift:11-21 | the message is the "container is empty" text exactly when the container has no keys. Otherwise it names exactly the requirements missing from the container |
| Requirements.AssertRequirements | Sources/DI/assertRequirements.swift:1-9 | the check passes exactly when the requirements are a subset of the container's keys, and otherwise fails with `message` |
| Requirements.NoRequirementsPass | Sources/DI/assertRequirements.swift:8 | an empty requirement set passes, even against an empty container |
| Requirements.FailureNamesMissingKeys | Sources/DI/assertRequirements.swift:8-21 | a failure has at least one missing key, and on a non-empty container the message names exactly those keys |
| Components.Component.Root | Sources/DI/Container.swift:66-76 | a root component's container is its own table merged into an empty one, and the root has no parents |
| Components.Component.Child | Sources/DI/Container.swift:66-76 | the construction past the requirement check, all that runs when assertions are compiled out: the child's container is the parent's container merged with the child's own table, and its parents are the parent's parents followed by the parent |
| Components.Component.FromParent | Sources/DI/assertRequirements.swift:1-9 | construction fails exactly when assertions are enabled and some requirement is missing from the parent's container, and the failure carries `message` for those requirements. Otherwise the child is built as `Child` builds it, whatever the container holds |
| Components.Component.Get | Sources/DI/ComponentProtocol.swift:7-9 | a component's lookup succeeds only for a key in its container, fails with "container is empty" on an empty container, and gives the stored value of a fixed entry |
| Components.Component.Bind | Sources/DI/Container.swift:79-91 | `bind` is `setFixed` on the component's own container |
| Utils.FuncNameSafe | Sources/DIMacros/Utils.swift:3-7 | the length is kept; every `.` and every `\` becomes `_`, and every other character is kept |
| Utils.NoSeparatorsLeft | Sources/DIMacros/Utils.swift:3-7 | the result contains no `.` and no `\`, and every other character stays where it was |
| Utils.SafeTextUnchanged | Sources/DIMacros/Utils.swift:3-7 | text without `.` or `\` is returned unchanged |
| Utils.Idempotent | Sources/DIMacros/Utils.swift:3-7 | applying the rewrite twice is the same as applying it once |
| Utils.DistinctKeysCanCollide | Sources/DIMacros/Utils.swift:3-7 | the rewrite is not injective: the keys `.foo` and `_foo` get the same fragment |
| ExtractKeys.Normalize | Sources/DIMacros/extractKey.swift:12-35 | a member access without a base, or on `AnyKey`, is spelled `.name`; any other expression that is not a member access keeps its text |
| ExtractKeys.AnyKeySpellingsAgree | Sources/DIMacros/extractKey.swift:12-35 | `AnyKey.x`, `DI.AnyKey.x` and `.x` all normalise to `.x` |
| ExtractKeys.OtherBasesKeepText | Sources/DIMacros/extractKey.swift:13-34 | a member access on any base other than `AnyKey` or `DI.AnyKey` keeps its whole text |
| ExtractKeys.NormalizeExamples | Tests/DIMacrosTests/extractKeyTests.swift:8-13 | the six spellings of the key test normalise as the test expects |
| ExtractKeys.KeyLess | Sources/DIMacros/extractKey.swift:37-39 | no key is less than itself |
| ExtractKeys.KeyLessIsStrictTotalOrder | Sources/DIMacros/extractKey.swift:37-39 | the order on keys, which is lexicographic on their text, is a strict total order |
| ExtractKeys.ExtractKey | Sources/DIMacros/extractKey.swift:42-48 | there is no key exactly when the attribute has no arguments; otherwise the key is the normalised first argument |
| ExtractKeys.GetCallVisitor.constructor | Sources/DIMacros/extractKey.swift:50-51 | a new visitor has recorded nothing |
| ExtractKeys.GetCallVisitor.Walk | Sources/DIMacros/extractKey.swift:50-60 | walking appends, in visiting order, the first argument of every bare `get` call, nested ones included |
| ExtractKeys.GetCallVisitor.WalkElements | Sources/DIMacros/extractKey.swift:50-60 | the labelled elements of a call, subscript, macro, tuple or interpolation are walked left to right |
| ExtractKeys.GetCallVisitor.WalkChildren | Sources/DIMacros/extractKey.swift:50-60 | the segments of a string literal, and the children of any other node, are walked left to right |
| ExtractKeys.GetCalls | Sources/DIMacros/extractKey.swift:53-59 | a bare `get` call records its own first argument before anything found inside it |
| ExtractKeys.KeysIn | Sources/DIMacros/extractKey.swift:62-68 | the key of a body that is itself a bare `get` call is among the keys it reads |
| ExtractKeys.ExtractKeysUsedInGet | Sources/DIMacros/extractKey.swift:62-68 | the result is the set of normalised first arguments of the bare `get` calls in the body |
| ExtractKeys.GetCallContributes | Sources/DIMacros/extractKey.swift:53-59 | a bare `get(k)` contributes `k`'s key, and every `get` nested inside it contributes too |
| ExtractKeys.SelfGetNotCollected | Sources/DIMacros/extractKey.swift:54-55 | a `self.get(...)` callee is not a bare `get`, so the call adds nothing of its own |
| ExtractKeys.PatternAReadsName | Tests/DITests/ComponentTests.swift:50-53 | `self.get(.name) + get(.name)` reads exactly the key `.name` |
| Syntax.LessIsStrictTotalOrder | Sources/DIMacros/extractKey.swift:37-39 | the lexicographic order on strings is a strict total order |
| Syntax.Less | Sources/DIMacros/extractKey.swift:37-39 | two strings in the order are different, and a proper prefix comes before the longer string |
| Syntax.ReplaceAll | Sources/DIMacros/Component/ComponentMacro.swift:234 | text without an occurrence is unchanged, and text that starts with a non-empty target starts with the replacement afterwards |
| Syntax.ReplaceAllLeading | Sources/DIMacros/Component/ComponentMacro.swift:234 | a leading occurrence is replaced, and the scan goes on after it |
| ComponentMacro.ProvidesOf | Sources/DIMacros/Component/ComponentMacro.swift:131-143 | an attribute provides something exactly when it names a key. Its key is the extracted key, and it has a priority exactly when its second argument is labelled `priority`; that argument's expression is then the priority |
| ComponentMacro.ExtractProvides | Sources/DIMacros/Component/ComponentMacro.swift:127-146 | something is found only when some attribute is named `Provides` |
| ComponentMacro.ExtractProvidesUsesFirst | Sources/DIMacros/Component/ComponentMacro.swift:127-146 | with no `Provides` attribute there is nothing, and otherwise the first `Provides` attribute alone decides |
| ComponentMacro.PriorityText | Sources/DIMacros/Component/ComponentMacro.swift:179 | the generated priority is the written expression, or `.default` when none is written |
| ComponentMacro.PriorityNeedsLabel | Sources/DIMacros/Component/ComponentMacro.swift:133-141 | an unlabelled second argument is ignored, and a second argument labelled `priority` is taken |
| ComponentMacro.KeysRead | Sources/DIMacros/Component/ComponentMacro.swift:30-42 | an initializer and any other member read no key, and a function whose body is a bare `get` call reads that call's key |
| ComponentMacro.CallsInitContainer | Sources/DIMacros/Component/ComponentMacro.swift:197-207 | a call whose callee is the bare name `initContainer` is found, and a bare name or a literal contains none |
| ComponentMacro.InitFix | Sources/DIMacros/Component/ComponentMacro.swift:46-61 | exactly an initializer with a body that never calls `initContainer` gets one fix-it, whose body is its own with the call appended |
| ComponentMacro.FixedBodyCallsInitContainer | Sources/DIMacros/Component/ComponentMacro.swift:50-58 | the body the fix-it proposes does call `initContainer`, so applying it silences the diagnostic |
| ComponentMacro.InitContainerCallText | Sources/DIMacros/Component/ComponentMacro.swift:53 | the appended call reads `initContainer(parent: nil)` for a root component and `initContainer(parent: parent)` otherwise |
| ComponentMacro.RequiredIffReadAndNotProvided | Sources/DIMacros/Component/ComponentMacro.swift:26-71 | a key is required exactly when some member reads it through `get` and no member provides it |
| ComponentMacro.UsedKeysAreRead | Sources/DIMacros/Component/ComponentMacro.swift:30-42 | the collected keys are exactly the keys some member reads |
| ComponentMacro.ProvidingsAreProvided | Sources/DIMacros/Component/ComponentMacro.swift:35-45 | the provided keys are exactly the keys some member's `@Provides` names |
| ComponentMacro.StripSelf | Sources/DIMacros/Component/ComponentMacro.swift:224-229 | text that does not start with `self.` is unchanged, and otherwise exactly the five characters of `self.` go |
| ComponentMacro.StartsWithSelfIsPrefix | Sources/DIMacros/Component/ComponentMacro.swift:225 | the character test is the prefix test for `self.` |
| ComponentMacro.StripSelfKeepsRest | Sources/DIMacros/Component/ComponentMacro.swift:224-229 | one leading `self.` is removed and the rest is kept; text without it is unchanged |
| ComponentMacro.MatchesIff | Sources/DIMacros/Component/ComponentMacro.swift:231-233 | a call expression followed by more text matches exactly when that text is empty or starts with `.`, so `fooValue` does not match `foo` |
| ComponentMacro.FirstMatch | Sources/DIMacros/Component/ComponentMacro.swift:231-233 | a found index is a providing whose call expression is no longer than the text |
| ComponentMacro.FirstMatchIsFirst | Sources/DIMacros/Component/ComponentMacro.swift:231-233 | nothing is found exactly when no providing matches; otherwise the found one matches and no earlier one does |
| ComponentMacro.Rewrite | Sources/DIMacros/Component/ComponentMacro.swift:224-234 | the fix-it is the argument with the call expression's length traded for the length of `get(key)` |
| ComponentMacro.RewriteReplacesHead | Sources/DIMacros/Component/ComponentMacro.swift:231-234 | for an argument `callExpression + rest`, with `rest` empty or starting with `.`, the fix-it is `get(key) + rest` |
| ComponentMacro.RewriteKeepsSelf | Sources/DIMacros/Component/ComponentMacro.swift:224-234 | behind a leading `self.`, the same fix-it, with the `self.` kept |
| ComponentMacro.RewriteAsWritten | Sources/DIMacros/Component/ComponentMacro.swift:234 | an argument without the call expression is unchanged, and one that starts with it starts with `get(key)` afterwards |
| ComponentMacro.RewritesAgreeOnSingleOccurrence | Sources/DIMacros/Component/ComponentMacro.swift:234 | when the call expression occurs only at the head, the fix-it as written and the corrected fix-it agree |
| ComponentMacro.RewriteAsWrittenHitsOtherNames | Sources/DIMacros/Component/ComponentMacro.swift:234 | as written, with provider `foo`, the argument `foo.fooBar` becomes `get(.foo).get(.foo)Bar` |
| ComponentMacro.RewriteKeepsOtherNames | Sources/DIMacros/Component/ComponentMacro.swift:231-234 | the corrected fix-it turns `foo.fooBar` into `get(.foo).fooBar` |
| ComponentMacro.Check | Sources/DIMacros/Component/ComponentMacro.swift:224-249 | a report is a `prefersContainer` diagnostic on the argument itself, and with no providings nothing is reported |
| ComponentMacro.CheckReportsFirstMatch | Sources/DIMacros/Component/ComponentMacro.swift:224-249 | an argument is reported exactly when its text, less a leading `self.`, matches some providing. The report names the argument and carries the fix-it for the first matching providing |
| ComponentMacro.Fixes | Sources/DIMacros/Component/ComponentMacro.swift:218-251 | with no providings there is no diagnostic, and the elements of a tuple give none |
| ComponentMacro.ArgumentFix | Sources/DIMacros/Component/ComponentMacro.swift:218-251 | with no providings a labelled element gives no diagnostic |
| ComponentMacro.CallArgumentsVisitor.constructor | Sources/DIMacros/Component/ComponentMacro.swift:210-216 | a new visitor keeps the providings and has no diagnostics |
| ComponentMacro.CallArgumentsVisitor.Walk | Sources/DIMacros/Component/ComponentMacro.swift:218-251 | walking appends the diagnostics of `Fixes`. Every labelled element of a call, subscript, freestanding macro or string interpolation is checked. A reported element is not entered, an unreported one is entered, and the elements of a tuple are skipped |
| ComponentMacro.CallArgumentsVisitor.WalkChildren | Sources/DIMacros/Component/ComponentMacro.swift:218-251 | the segments of a string literal, and the children of any other node, are walked left to right |
| ComponentMacro.CallArgumentsVisitor.VisitArguments | Sources/DIMacros/Component/ComponentMacro.swift:218-251 | the labelled elements of a call, subscript, macro or interpolation are visited left to right |
| ComponentMacro.CallArgumentsVisitor.Visit | Sources/DIMacros/Component/ComponentMacro.swift:224-250 | one argument gives its own diagnostic, or else the diagnostics found inside it |
| ComponentMacro.CallArgumentsVisitor.WalkAll | Sources/DIMacros/Component/ComponentMacro.swift:66 | the member block is walked member after member |
| ComponentMacro.Sort | Sources/DIMacros/Component/ComponentMacro.swift:72 | the sorted keys are strictly ascending, so they have no duplicates, and they are exactly the keys of the set |
| ComponentMacro.SortedIsUnique | Sources/DIMacros/Component/ComponentMacro.swift:72 | two strictly sorted sequences with the same keys are equal, so the sorted order has one answer |
| ComponentMacro.Descriptions | Sources/DIMacros/Component/ComponentMacro.swift:77 | the diagnostic lists the text of every key, in order |
| ComponentMacro.ScanMembers | Sources/DIMacros/Component/ComponentMacro.swift:26-63 | the member loop yields the keys read, the providings in member order, whether an initializer exists, and the `initContainer` fix-its |
| ComponentMacro.ScanMember | Sources/DIMacros/Component/ComponentMacro.swift:31-62 | one member's keys read, providing and fix-it |
| ComponentMacro.Expand | Sources/DIMacros/Component/ComponentMacro.swift:14-101 | a non-struct is refused with "Expected a struct declaration.". Otherwise the expansion has the providings in member order, and the required keys sorted strictly ascending. An initializer is synthesized exactly when none is declared. The diagnostics are the `initContainer` fix-its, then the visitor's, then `missingRequiredValues` for a root component with any required key |
| CallArgumentsTests.BasicFixes | Tests/DIMacrosTests/CallArgumentsVisitorTests.swift:7-27 | `A(foo: getFoo())` gives one diagnostic on `getFoo()`, with `get(.foo)` as the fix-it |
| CallArgumentsTests.Basic | Tests/DIMacrosTests/CallArgumentsVisitorTests.swift:7-27 | the visitor run on that call reports exactly that diagnostic |
| CallArgumentsTests.SelfFixes | Tests/DIMacrosTests/CallArgumentsVisitorTests.swift:29-49 | `A(foo: self.getFoo())` gives one diagnostic, with `self.get(.foo)` as the fix-it |
| CallArgumentsTests.SelfAccess | Tests/DIMacrosTests/CallArgumentsVisitorTests.swift:29-49 | the visitor run on that call reports exactly that diagnostic |
| CallArgumentsTests.MemberAccessFixes | Tests/DIMacrosTests/CallArgumentsVisitorTests.swift:51-71 | `B(bar: getFoo().bar)` gives one diagnostic on the whole member access, with `get(.foo).bar` as the fix-it |
| CallArgumentsTests.MemberAccess | Tests/DIMacrosTests/CallArgumentsVisitorTests.swift:51-71 | the visitor run on that call reports exactly that diagnostic |
| CallArgumentsTests.ConfusingPrefixFixes | Tests/DIMacrosTests/CallArgumentsVisitorTests.swift:73-86 | `A(foo: fooValue)` against the provider `foo` gives no diagnostic |
| CallArgumentsTests.ConfusingPrefix | Tests/DIMacrosTests/CallArgumentsVisitorTests.swift:73-86 | the visitor run on that call reports nothing |
| CallArgumentsTests.EscapeByTupleFixes | Tests/DIMacrosTests/CallArgumentsVisitorTests.swift:88-101 | `A(foo: (foo))` gives no diagnostic |
| CallArgumentsTests.EscapeByTuple | Tests/DIMacrosTests/CallArgumentsVisitorTests.swift:88-101 | the visitor run on that call reports nothing |
| CallArgumentsTests.GetFooCallFix | Tests/DIMacrosTests/CallArgumentsVisitorTests.swift:7-27 | the element `getFoo()` is reported once, with `get(.foo)` as the fix-it |
| CallArgumentsTests.InterpolationFixes | Sources/DIMacros/Component/ComponentMacro.swift:218-251 | in `A(foo: "x\(getFoo())")` the string is entered, and the element of its interpolation gives one diagnostic with `get(.foo)` |
| CallArgumentsTests.Interpolated | Sources/DIMacros/Component/ComponentMacro.swift:218-251 | the visitor run on that call reports exactly that diagnostic |
| CallArgumentsTests.SubscriptFixes | Sources/DIMacros/Component/ComponentMacro.swift:218-251 | the subscript argument in `table[getFoo()]` gives one diagnostic with `get(.foo)` |
| CallArgumentsTests.MacroArgumentFixes | Sources/DIMacros/Component/ComponentMacro.swift:218-251 | the argument in `#stringify(getFoo())` gives one diagnostic with `get(.foo)` |
| CallArgumentsTests.ConstructFixes | Sources/DIMacros/Component/ComponentMacro.swift:218-251 | a call with one argument yields exactly what the visitor makes of that argument |
| ComponentTests.DeclareKeys | Tests/DITests/ComponentTests.swift:4-12 | the seven test keys are distinct slots, although `.name`, `.message` and `.getPatternA` are all `Key<String>` |
| ComponentTests.RootMetadata | Tests/DITests/ComponentTests.swift:14-36 | the root's generated setter calls build its table |
| ComponentTests.ParentMetadata | Tests/DITests/ComponentTests.swift:38-80 | the parent's generated setter calls build its table |
| ComponentTests.ChildMetadata | Tests/DITests/ComponentTests.swift:82-101 | the child's generated setter calls build its table |
| ComponentTests.ParentContainerEntries | Tests/DITests/ComponentTests.swift:38-80 | the parent's container holds its own `name`, `message`, patterns and `priorityTest`, and the root's `age` |
| ComponentTests.ChildContainerEntries | Tests/DITests/ComponentTests.swift:82-101 | the child's container holds the child's `name`, because it wins the default-priority tie, and the parent's `priorityTest`, because 20 beats 0 |
| ComponentTests.MessageResolves | Tests/DITests/ComponentTests.swift:45-48 | `message` gives the greeting built from whatever `name` and `age` resolve to in the same table and chain |
| ComponentTests.GreetingResolves | Tests/DITests/ComponentTests.swift:45-48 | in any table holding the root's `age` and the parent's `message`, along a chain of the tests, `message` greets whatever `name` resolves to, aged 42 |
| ComponentTests.ChildNameResolves | Tests/DITests/ComponentTests.swift:84-85 | the child's `name` provider reads the name the child instance stores |
| ComponentTests.BuildChain | Tests/DITests/ComponentTests.swift:105-108 | the root, parent and child have their chains, and the containers the merge rule gives |
| ComponentTests.NewParent | Tests/DITests/ComponentTests.swift:105-107 | ParentComponent built under the root with assertions enabled passes its check, and has the chain and container of `Child` |
| ComponentTests.NewChild | Tests/DITests/ComponentTests.swift:108-109 | ChildComponent built under the parent with assertions enabled passes its check, and has the chain and container of `Child` |
| ComponentTests.ChildUnderRoot | Sources/DI/assertRequirements.swift:1-21 | ChildComponent built straight under the root fails with assertions enabled, naming `message` and the three patterns, and is built without them |
| ComponentTests.SetName | Tests/DITests/ComponentTests.swift:116 | assigning the child's `name` changes its stored name and nothing else |
| ComponentTests.ParentMessage | Tests/DITests/ComponentTests.swift:104-107 | through the parent's chain, `message` greets `ParentComponent` |
| ComponentTests.ChildMessage | Tests/DITests/ComponentTests.swift:108-109 | through the child's chain, the parent's `message` greets whatever name the child stores |
| ComponentTests.InheritanceAndOverride | Tests/DITests/ComponentTests.swift:104-110 | the parent gives "I'm ParentComponent, age=42", and the child "I'm ChildComponent, age=42" |
| ComponentTests.MutateSelf | Tests/DITests/ComponentTests.swift:112-118 | the child gives "I'm ChildComponent, age=42", and after `name = "Foo"` it gives "I'm Foo, age=42" |
| ComponentTests.PatternResolves | Tests/DITests/ComponentTests.swift:50-68 | a pattern provider doubles the name it reads |
| ComponentTests.PatternOutcomes | Tests/DITests/ComponentTests.swift:120-127 | with the child's name set to `<>`, the three patterns give `<><>` |
| ComponentTests.GetPatterns | Tests/DITests/ComponentTests.swift:120-127 | the three patterns read through the renamed child all give `<><>` |
| ComponentTests.PriorityOutcomes | Tests/DITests/ComponentTests.swift:129-136 | `priorityTest` is 10 at the root. It is 20 at the parent, because custom 20 beats 10, and 20 at the child, because the parent's 20 beats the child's 0 and runs on the parent instance |
| ComponentTests.Priority | Tests/DITests/ComponentTests.swift:129-136 | the three components give 10, 20 and 20 |
| ComponentTests.BindOutcomes | Tests/DITests/ComponentTests.swift:138-148 | a default bind of `name` replaces the provider. A `custom(-1)` bind of `age` is ignored, so age stays 42, and a default bind of `age` replaces it with 99 |
| ComponentTests.Bind | Tests/DITests/ComponentTests.swift:138-148 | the parent gives "I'm Overridden, age=42" and then "I'm Overridden, age=99" |
| ComponentTests.ChildOver | Sources/DI/Container.swift:68-71 | a child built on a container keeps its `age` and `message`; its own `name` wins unless the container's `name` has a higher priority |
| ComponentTests.ChildOverDefaultBind | Tests/DITests/ComponentTests.swift:150-156 | after a default bind on the parent, a child built from it wins the tie with its own `name` |
| ComponentTests.ChildUnderTestBind | Tests/DITests/ComponentTests.swift:158-160 | after a test-priority bind on the parent, the child keeps the bound `name` over its own default provider |
| ComponentTests.BindThenChildMessage | Tests/DITests/ComponentTests.swift:150-160 | a bind of `name` on the parent, then a new child and its `message`: the parent's container takes the bind under the merge rule, and the child merges its table on top |
| ComponentTests.BindTwice | Tests/DITests/ComponentTests.swift:150-161 | the two binds each followed by a new child give the `message`s of the merged tables, and the child built first still gives its first answer |
| ComponentTests.BindWithInheritance | Tests/DITests/ComponentTests.swift:150-161 | the child gives "I'm ChildComponent, age=42", and, rebuilt after a test-priority bind, "I'm Overridden, age=42". The child built earlier keeps its own copy of the container |
| ComponentTests.BindInChildOutcome | Tests/DITests/ComponentTests.swift:163-168 | a bind on the child is seen by the provider the parent declared, run through the child |
| ComponentTests.BindInChildAndUseInParent | Tests/DITests/ComponentTests.swift:163-168 | the child gives "I'm ChildComponent, age=42" and then, after the bind, "I'm Overridden, age=42" |
| ComponentTests.PlainOutcome | Tests/DITests/ComponentTests.swift:170-196 | the root's `message` reads `name` through a plain helper; resolved for the child, it gives "Child" |
| ComponentTests.GetWithoutProvideAnnotation | Tests/DITests/ComponentTests.swift:192-196 | the child's `message` is "Child" |

## Left out

- Hashing of keys (Sources/DI/Key.swift:5-7): Dafny maps need no hash function. Equal keys are the same object, so they hash alike trivially.
- Concurrency and `Sendable`: the model is sequential.
- Provider closures: arbitrary Swift code is replaced by the small `Provider` language (literal, stored field, nested `get`, concatenation).
- Keys.AnyKey.Plain: the Swift class hierarchy (`Key<Instance>` as a subclass of `AnyKey`) is a tag on the key object.
- Containers.Resolve: a fuel bound stops nested `get`s. A provider that reads itself, which would recurse forever in Swift, ends in `OutOfFuel`. `ResolveFuelMonotone` shows that fuel changes no other answer.
- Containers.Resolve: `NoSuchField` is a failure of the provider language itself. Swift's type checker rules it out.
- Integer values that providers return are unbounded, so `Int` overflow inside a provider is not modelled. Priorities are 64-bit (`Priorities.Int`).
- `preconditionFailure` is not a program exit here: it becomes an `Err` value. The failing `assert` of `assertRequirements` becomes the `Err` of Components.Component.FromParent when assertions are enabled. The text of the messages is represented by the failure's kind and its data.
- The library's `initContainer(parent:)` and `bind(_:forKey:priority:)` are not modelled from their code. Components.Component.FromParent is built as the requirement check, then Components.Component.Child: a copy of the parent's container, then `combine` of its own table. Components.Component.Bind is `setFixed` on the component's own container.
- `Component.get` and `withContainer` (Sources/DI/ComponentProtocol.swift): `get` there calls `container.get(key)` without the chain that `Container.get` requires. The model's Components.Component.Get passes `parents + [self]`.
- Sources/DIMacros/Component.swift and Sources/DIMacros/Privides.swift are older copies of the component and provides macros. They are not part of this model.
- The provides macro (Sources/DIMacros/Provides) is not part of this model. It emits text templates, and the `DI.VariantChecker` assertion it emits is not modelled.
- Code emission: the text of `requirements`, `buildInitDecl`, `buildBuildMetadata`, the extension macro and the diagnostic message strings. The model keeps what is decided: the sorted keys, the providings, whether to synthesize an initializer, and each fix-it's content.
- Syntax trivia: `Text` renders an expression without whitespace or comments. The fix-it's copied leading trivia and the `.fixedUp` view mode are not modelled.
- Syntax.Less compares strings by character code. Swift's `String.<` compares by Unicode canonical ordering, and the two differ only outside plain ASCII.
- `ComponentMacro.extractArguments` (the `root:` argument) is a parameter `Option<bool>` of ComponentMacro.Expand. Its "Unexpected literal." error is not modelled.
- Only the first pattern binding of a variable declaration is represented, as the source reads only `bindings.first`.
- `ComponentMacroDiagnostic` declares only `initContainerNotCalled` and `prefersContainer`, not the `missingRequiredValues(keys:)` that Sources/DIMacros/Component/ComponentMacro.swift:77 uses. The model has the diagnostic the expansion evidently intends.
- `InitContainerCallVisitor` is the predicate `CallsInitContainer`: whether a call with the bare callee `initContainer` occurs. Skipping the children of a found call does not change that answer.
- ComponentMacro.ExtractProvides: states only that a result needs a `Provides` attribute in its own contract. Which attribute decides is stated in ExtractProvidesUsesFirst and ProvidesOf.
- ComponentMacro.Check: states only the shape of a report in its own contract. When it reports and with which fix-it is stated in CheckReportsFirstMatch.
- ComponentMacro.FirstMatch: states only bounds in its own contract. Which providing it finds is stated in FirstMatchIsFirst.
- ComponentMacro.Rewrite: its own contract states the length of the fix-it. The text is stated in RewriteReplacesHead and RewriteKeepsSelf.
- ComponentMacro.KeysRead: its own contract states the edge cases. Which keys a member reads is stated in UsedKeysAreRead and RequiredIffReadAndNotProvided.
- ComponentMacro.Fixes: its own contract states the edge cases. The diagnostics for an argument are stated in CheckReportsFirstMatch and ConstructFixes, and the visitor is proved equal to it in CallArgumentsVisitor.Walk.
- ComponentMacro.ArgumentFix: its own contract states the edge case of no providings. The rest is stated in CheckReportsFirstMatch.
- ExtractKeys.GetCalls: its own contract states only the head of a bare `get` call. The full walk is stated in GetCallContributes and SelfGetNotCollected, and the visitor is proved equal to it in GetCallVisitor.Walk.
- ExtractKeys.KeysIn: its own contract states only the key of a body that is a bare `get` call. The rest is stated in ExtractKeysUsedInGet and PatternAReadsName.
- Containers.Eval: its own contract states the literal, fuel and concatenation cases. Nested lookups are stated in NestedGetUsesCallersTable and ResolveFuelMonotone.
- ComponentMacro.StripSelf: states only lengths and the unchanged case in its own contract. What is kept is stated in StripSelfKeepsRest and StartsWithSelfIsPrefix.
- Containers.Merged: the function carries no `ensures`. Its key set and every entry are stated in MergeRule.
- Containers.Resolve: tests whether the entry is fixed before scanning the chain, where Swift scans first and tests afterwards. A fixed entry matches no component type, so the scan finds nothing and the answers agree.
- ComponentMacro.MemberSyntax: for a function the visitor walks its attributes and its body. The function's signature and its parameters' default values are not represented, so call arguments written there are not checked.
- Key-path subscripts and closures inside arguments are not distinct forms; the general `Node` form stands for them and is walked child by child. A call or freestanding macro with a trailing closure is written as a `Node` of the call and the closure, which gives the same walk order: the arguments first, then the closure's body.

## Findings

| source | as written | input that shows it | evidently intended | confidence | as-written member | corrected member |
|---|---|---|---|---|---|---|
| Sources/DIMacros/Component/ComponentMacro.swift:234 | The fix-it replaces every occurrence of the provider's call expression in the argument text | provider `foo` (key `.foo`) and argument `foo.fooBar`: the fix-it is `get(.foo).get(.foo)Bar` | replace only the matched head, giving `get(.foo).fooBar` | high; not executed | ComponentMacro.RewriteAsWrittenHitsOtherNames | ComponentMacro.RewriteKeepsOtherNames |

The model's visitor uses the corrected rewrite, `ComponentMacro.Rewrite`.
`ComponentMacro.RewritesAgreeOnSingleOccurrence` shows that the two rewrites agree when the call expression occurs only once.
