/**
  The components of Tests/DITests/ComponentTests.swift and the outcomes those tests
  expect, proved on the model: overrides along a three-level chain, priorities,
  binds, and providers declared on an ancestor that read keys a descendant overrides.
 */
module ComponentTests {
  import opened Wrappers
  import opened Priorities
  import opened Keys
  import opened Containers
  import opened Requirements
  import opened Components

  // ---------------------------------------------------------------------------
  // The components of Tests/DITests/ComponentTests.swift
  // ---------------------------------------------------------------------------

  datatype TestKeys = TestKeys(name: AnyKey, age: AnyKey, message: AnyKey,
                               getPatternA: AnyKey, getPatternB: AnyKey, getPatternC: AnyKey,
                               priorityTest: AnyKey)

  /** The seven keys are seven different objects. */
  predicate Distinct(k: TestKeys) {
    && k.name != k.age && k.name != k.message && k.name != k.priorityTest
    && k.name != k.getPatternA && k.name != k.getPatternB && k.name != k.getPatternC
    && k.age != k.message && k.age != k.priorityTest
    && k.age != k.getPatternA && k.age != k.getPatternB && k.age != k.getPatternC
    && k.message != k.priorityTest
    && k.message != k.getPatternA && k.message != k.getPatternB && k.message != k.getPatternC
    && k.priorityTest != k.getPatternA && k.priorityTest != k.getPatternB && k.priorityTest != k.getPatternC
    && k.getPatternA != k.getPatternB && k.getPatternA != k.getPatternC && k.getPatternB != k.getPatternC
  }

  const StringType := ValueType("String")
  const IntType := ValueType("Int")

  /** The seven keys the tests declare: three of them `Key<String>` alike, all distinct slots. */
  method DeclareKeys() returns (k: TestKeys)
    ensures Distinct(k)
    ensures k.name.dynamicClass == k.message.dynamicClass == k.getPatternA.dynamicClass
  {
    var name := new AnyKey.Typed(StringType);
    var age := new AnyKey.Typed(IntType);
    var message := new AnyKey.Typed(StringType);
    var a := new AnyKey.Typed(StringType);
    var b := new AnyKey.Typed(StringType);
    var c := new AnyKey.Typed(StringType);
    var p := new AnyKey.Typed(IntType);
    k := TestKeys(name, age, message, a, b, c, p);
  }

  const RootType := TypeTag("RootComponent")
  const ParentType := TypeTag("ParentComponent")
  const ChildType := TypeTag("ChildComponent")

  /** `"I'm \(get(.name)), age=\(get(.age))"`. */
  function MessageBody(k: TestKeys): Provider {
    Concat(Lit(Str("I'm ")), Concat(Get(k.name), Concat(Lit(Str(", age=")), Get(k.age))))
  }

  function RootTable(k: TestKeys): Table {
    map[k.name := Computed(RootType, Default(), Lit(Str("RootComponent"))),
        k.age := Computed(RootType, Default(), Lit(Num(42))),
        k.priorityTest := Computed(RootType, Custom(10), Field("priorityTest"))]
  }

  function ParentTable(k: TestKeys): Table {
    map[k.name := Computed(ParentType, Default(), Lit(Str("ParentComponent"))),
        k.message := Computed(ParentType, Default(), MessageBody(k)),
        k.getPatternA := Computed(ParentType, Default(), Concat(Get(k.name), Get(k.name))),
        k.getPatternB := Computed(ParentType, Default(), Concat(Get(k.name), Get(k.name))),
        k.getPatternC := Computed(ParentType, Default(), Concat(Get(k.name), Get(k.name))),
        k.priorityTest := Computed(ParentType, Custom(20), Field("priorityTest"))]
  }

  function ChildTable(k: TestKeys): Table {
    map[k.name := Computed(ChildType, Default(), Field("name")),
        k.priorityTest := Computed(ChildType, Custom(0), Field("priorityTest"))]
  }

  /** ParentComponent's generated `requirements`: `message` reads `age`, which it does not provide. */
  function ParentRequirements(k: TestKeys): set<AnyKey> {
    {k.age}
  }

  /** ChildComponent's generated `requirements`: the four keys its functions read and it does not provide. */
  function ChildRequirements(k: TestKeys): set<AnyKey> {
    {k.message, k.getPatternA, k.getPatternB, k.getPatternC}
  }

  /** RootComponent's generated `providingMetadata`: one setter call per `@Provides`. */
  method RootMetadata(k: TestKeys) returns (m: ProvidingMetadata)
    ensures fresh(m) && m.Valid() && m.owner == RootType && m.table == RootTable(k)
  {
    m := new ProvidingMetadata(RootType);
    m.Set(k.name, Default(), Lit(Str("RootComponent")));
    m.Set(k.age, Default(), Lit(Num(42)));
    m.Set(k.priorityTest, Custom(10), Field("priorityTest"));
  }

  /** ParentComponent's generated `providingMetadata`. */
  method ParentMetadata(k: TestKeys) returns (m: ProvidingMetadata)
    ensures fresh(m) && m.Valid() && m.owner == ParentType && m.table == ParentTable(k)
  {
    m := new ProvidingMetadata(ParentType);
    m.Set(k.name, Default(), Lit(Str("ParentComponent")));
    m.Set(k.message, Default(), MessageBody(k));
    m.Set(k.getPatternA, Default(), Concat(Get(k.name), Get(k.name)));
    m.Set(k.getPatternB, Default(), Concat(Get(k.name), Get(k.name)));
    m.Set(k.getPatternC, Default(), Concat(Get(k.name), Get(k.name)));
    m.Set(k.priorityTest, Custom(20), Field("priorityTest"));
  }

  /** ChildComponent's generated `providingMetadata`. */
  method ChildMetadata(k: TestKeys) returns (m: ProvidingMetadata)
    ensures fresh(m) && m.Valid() && m.owner == ChildType && m.table == ChildTable(k)
  {
    m := new ProvidingMetadata(ChildType);
    m.Set(k.name, Default(), Field("name"));
    m.Set(k.priorityTest, Custom(0), Field("priorityTest"));
  }

  // ---------------------------------------------------------------------------
  // The chains the tests build
  // ---------------------------------------------------------------------------

  function RootInstance(): Instance {
    Instance(RootType, map["priorityTest" := Num(10)])
  }

  function ParentInstance(): Instance {
    Instance(ParentType, map["priorityTest" := Num(20)])
  }

  /** ChildComponent with its stored `name` (initially "ChildComponent"; the tests reassign it). */
  function ChildInstance(name: string): Instance {
    Instance(ChildType, map["name" := Str(name), "priorityTest" := Num(0)])
  }

  function RootContainer(k: TestKeys): Table {
    Merged(map[], RootTable(k))
  }

  function ParentContainer(k: TestKeys): Table {
    Merged(RootContainer(k), ParentTable(k))
  }

  function ChildContainer(k: TestKeys): Table {
    Merged(ParentContainer(k), ChildTable(k))
  }

  /** What the parent's container holds: its own entries, and the root's `age`. */
  lemma ParentContainerEntries(k: TestKeys)
    requires Distinct(k)
    ensures var m := ParentContainer(k);
      && k.name in m && m[k.name] == ParentTable(k)[k.name]
      && k.age in m && m[k.age] == RootTable(k)[k.age]
      && k.message in m && m[k.message] == ParentTable(k)[k.message]
      && k.getPatternA in m && m[k.getPatternA] == ParentTable(k)[k.getPatternA]
      && k.getPatternB in m && m[k.getPatternB] == ParentTable(k)[k.getPatternB]
      && k.getPatternC in m && m[k.getPatternC] == ParentTable(k)[k.getPatternC]
      && k.priorityTest in m && m[k.priorityTest] == ParentTable(k)[k.priorityTest]
    ensures ServesGreeting(ParentContainer(k), k)
    ensures ParentContainer(k)[k.name] == Computed(ParentType, Default(), Lit(Str("ParentComponent")))
  {
    var r := RootContainer(k);
    MergeRule(map[], RootTable(k), k.name);
    MergeRule(map[], RootTable(k), k.age);
    MergeRule(map[], RootTable(k), k.priorityTest);
    MergeRule(r, ParentTable(k), k.name);
    MergeRule(r, ParentTable(k), k.age);
    MergeRule(r, ParentTable(k), k.message);
    MergeRule(r, ParentTable(k), k.getPatternA);
    MergeRule(r, ParentTable(k), k.getPatternB);
    MergeRule(r, ParentTable(k), k.getPatternC);
    MergeRule(r, ParentTable(k), k.priorityTest);
  }

  /**
    What the child's container holds: the child's `name` (a default-priority tie it wins),
    but the parent's `priorityTest` (custom 20 beats the child's custom 0).
   */
  lemma ChildContainerEntries(k: TestKeys)
    requires Distinct(k)
    ensures var m := ChildContainer(k);
      && k.name in m && m[k.name] == ChildTable(k)[k.name]
      && k.age in m && m[k.age] == RootTable(k)[k.age]
      && k.message in m && m[k.message] == ParentTable(k)[k.message]
      && k.getPatternA in m && m[k.getPatternA] == ParentTable(k)[k.getPatternA]
      && k.getPatternB in m && m[k.getPatternB] == ParentTable(k)[k.getPatternB]
      && k.getPatternC in m && m[k.getPatternC] == ParentTable(k)[k.getPatternC]
      && k.priorityTest in m && m[k.priorityTest] == ParentTable(k)[k.priorityTest]
    ensures ServesGreeting(ChildContainer(k), k)
    ensures ChildContainer(k)[k.name] == Computed(ChildType, Default(), Field("name"))
  {
    ParentContainerEntries(k);
    var p := ParentContainer(k);
    MergeRule(p, ChildTable(k), k.name);
    MergeRule(p, ChildTable(k), k.age);
    MergeRule(p, ChildTable(k), k.message);
    MergeRule(p, ChildTable(k), k.getPatternA);
    MergeRule(p, ChildTable(k), k.getPatternB);
    MergeRule(p, ChildTable(k), k.getPatternC);
    MergeRule(p, ChildTable(k), k.priorityTest);
  }

  /** The text `message` builds from a name and an age. */
  function Greeting(name: string, age: int): string {
    "I'm " + name + ", age=" + Decimal(age)
  }

  /** The texts the tests compare against, as the providers assemble them. */
  lemma ParentGreeting()
    ensures Greeting("ParentComponent", 42) == "I'm ParentComponent, age=42"
  {
    AgedFortyTwo("ParentComponent");
  }

  /** The `age` part of a greeting for the root's 42, whatever the name. */
  lemma AgedFortyTwo(name: string)
    ensures Greeting(name, 42) == "I'm " + name + ", age=42"
  {
    DecimalExamples();
    assert ", age=" + "42" == ", age=42";
  }

  lemma ChildGreeting()
    ensures Greeting("ChildComponent", 42) == "I'm ChildComponent, age=42"
  {
    AgedFortyTwo("ChildComponent");
  }

  lemma FooGreeting()
    ensures Greeting("Foo", 42) == "I'm Foo, age=42"
  {
    AgedFortyTwo("Foo");
  }

  lemma OverriddenGreeting()
    ensures Greeting("Overridden", 42) == "I'm Overridden, age=42"
  {
    AgedFortyTwo("Overridden");
  }

  lemma AgedNinetyNine()
    ensures Greeting("Overridden", 99) == "I'm Overridden, age=99"
  {
    DecimalExamples();
  }

  lemma Doubled()
    ensures "<>" + "<>" == "<><>"
  {
  }

  lemma DecimalExamples()
    ensures Decimal(42) == "42" && Decimal(99) == "99" && Decimal(-1) == "-1"
  {
  }

  /**
    `message` resolves to the text built from whatever `name` and `age` resolve to in the
    same table and chain.
   */
  lemma MessageResolves(m: Table, chain: seq<Instance>, k: TestKeys, fuel: nat, name: string, age: int)
    requires k.message in m && m[k.message].Computed? && m[k.message].body == MessageBody(k)
    requires LastOfType(chain, m[k.message].owner).Some?
    requires Resolve(m, chain, k.name, fuel) == Ok(Str(name))
    requires Resolve(m, chain, k.age, fuel) == Ok(Num(age))
    ensures Resolve(m, chain, k.message, fuel + 1) == Ok(Str(Greeting(name, age)))
  {
    var self := chain[LastOfType(chain, m[k.message].owner).value];
    var ageText := Concat(Lit(Str(", age=")), Get(k.age));
    var nameText := Concat(Get(k.name), ageText);
    assert Eval(m, chain, self, ageText, fuel + 1) == Ok(Str(", age=" + Decimal(age)));
    assert Eval(m, chain, self, nameText, fuel + 1) == Ok(Str(name + (", age=" + Decimal(age))));
    assert Eval(m, chain, self, MessageBody(k), fuel + 1) == Ok(Str("I'm " + (name + (", age=" + Decimal(age)))));
    assert "I'm " + (name + (", age=" + Decimal(age))) == "I'm " + name + ", age=" + Decimal(age);
  }

  /** The root's `age` and the parent's `message`: the entries every greeting reads besides `name`. */
  predicate ServesGreeting(m: Table, k: TestKeys) {
    && k.age in m && m[k.age] == Computed(RootType, Default(), Lit(Num(42)))
    && k.message in m && m[k.message] == Computed(ParentType, Default(), MessageBody(k))
  }

  /** A chain the tests build: the root, the parent, and after them only children. */
  predicate TestChain(chain: seq<Instance>) {
    && |chain| >= 2 && chain[0] == RootInstance() && chain[1] == ParentInstance()
    && forall j | 2 <= j < |chain| :: chain[j].ty == ChildType
  }

  lemma TestChains(name: string)
    ensures TestChain(ParentChain()) && TestChain(ChildChain(name))
  {
  }

  /**
    In any table that holds the root's `age` and the parent's `message`, run along a chain
    of the tests, `message` greets whatever `name` resolves to, aged 42.
   */
  lemma GreetingResolves(m: Table, chain: seq<Instance>, k: TestKeys, name: string)
    requires ServesGreeting(m, k) && TestChain(chain)
    requires Resolve(m, chain, k.name, 1) == Ok(Str(name))
    ensures Resolve(m, chain, k.message, 2) == Ok(Str(Greeting(name, 42)))
  {
    ComputedRunsOnMostDerivedOwner(m, chain, k.age, 1, 0);
    assert chain[1].ty == ParentType;
    MessageResolves(m, chain, k, 1, name, 42);
  }

  /** The child's `name` provider reads the `name` the child instance stores. */
  lemma ChildNameResolves(m: Table, k: TestKeys, name: string, fuel: nat)
    requires k.name in m && m[k.name] == Computed(ChildType, Default(), Field("name"))
    ensures Resolve(m, ChildChain(name), k.name, fuel) == Ok(Str(name))
  {
    ComputedRunsOnMostDerivedOwner(m, ChildChain(name), k.name, fuel, 2);
  }

  /** The root, parent and child of the tests, built as the tests build them. */
  method BuildChain(k: TestKeys) returns (root: Component, parent: Component, child: Component)
    requires Distinct(k)
    ensures fresh(root) && fresh(parent) && fresh(child)
    ensures fresh(root.container) && fresh(parent.container) && fresh(child.container)
    ensures root.container != parent.container && parent.container != child.container && child.container != root.container
    ensures root.Chain() == [RootInstance()] && root.container.combinedMetadata == RootContainer(k)
    ensures parent.Chain() == [RootInstance(), ParentInstance()]
    ensures parent.container.combinedMetadata == ParentContainer(k)
    ensures child.Chain() == [RootInstance(), ParentInstance(), ChildInstance("ChildComponent")]
    ensures child.parents == ParentChain() && child.ty == ChildType
    ensures child.fields == ChildInstance("ChildComponent").fields
    ensures child.container.combinedMetadata == ChildContainer(k)
  {
    var rm := RootMetadata(k);
    root := new Component.Root(rm, RootInstance().fields);
    parent := NewParent(k, root);
    ParentContainerEntries(k);
    child := NewChild(k, parent);
  }

  /** ParentComponent built under `root` with assertions enabled, which the root's container lets through. */
  method NewParent(k: TestKeys, root: Component) returns (parent: Component)
    requires ParentRequirements(k) <= root.container.Keys()
    ensures fresh(parent) && fresh(parent.container)
    ensures parent.ty == ParentType && parent.fields == ParentInstance().fields
    ensures parent.parents == root.parents + [root.Self()]
    ensures parent.container.combinedMetadata == Merged(root.container.combinedMetadata, ParentTable(k))
  {
    var pm := ParentMetadata(k);
    var built := Component.FromParent(root, ParentRequirements(k), pm, ParentInstance().fields, true);
    parent := built.value;
  }

  /** ChildComponent built under `parent` with assertions enabled, which the parent's container lets through. */
  method NewChild(k: TestKeys, parent: Component) returns (child: Component)
    requires ChildRequirements(k) <= parent.container.Keys()
    ensures fresh(child) && fresh(child.container)
    ensures child.ty == ChildType && child.fields == ChildInstance("ChildComponent").fields
    ensures child.parents == parent.parents + [parent.Self()]
    ensures child.container.combinedMetadata == Merged(parent.container.combinedMetadata, ChildTable(k))
  {
    var cm := ChildMetadata(k);
    var built := Component.FromParent(parent, ChildRequirements(k), cm, ChildInstance("ChildComponent").fields, true);
    child := built.value;
  }

  /**
    ChildComponent built straight under RootComponent: with assertions enabled construction
    stops, naming the four keys the root's container lacks; with them compiled out the
    child is built all the same.
   */
  method ChildUnderRoot() returns (k: TestKeys, checked: Result<Component, Message>, unchecked: Result<Component, Message>)
    ensures checked == Err(KeysNotFound(ChildRequirements(k)))
    ensures unchecked.Ok? && unchecked.value.parents == [RootInstance()]
  {
    k := DeclareKeys();
    var rm := RootMetadata(k);
    var cm := ChildMetadata(k);
    var root := new Component.Root(rm, RootInstance().fields);
    assert root.container.Keys() == {k.name, k.age, k.priorityTest};
    assert ChildRequirements(k) - root.container.Keys() == ChildRequirements(k);
    checked := Component.FromParent(root, ChildRequirements(k), cm, ChildInstance("ChildComponent").fields, true);
    unchecked := Component.FromParent(root, ChildRequirements(k), cm, ChildInstance("ChildComponent").fields, false);
  }

  /** Writing `name` into a child's stored fields gives the child instance with that name. */
  lemma Renamed(name: string, renamed: string)
    ensures ChildInstance(name).fields["name" := Str(renamed)] == ChildInstance(renamed).fields
  {
  }

  /** `child.name = name` in the tests: the child's stored `name` changes and nothing else. */
  method SetName(child: Component, current: string, name: string)
    requires child.parents == ParentChain() && child.ty == ChildType
    requires child.fields == ChildInstance(current).fields
    modifies child
    ensures child.Chain() == ChildChain(name)
    ensures child.parents == ParentChain() && child.fields == ChildInstance(name).fields
    ensures child.container == old(child.container)
  {
    child.fields := child.fields["name" := Str(name)];
    Renamed(current, name);
  }

  function ParentChain(): seq<Instance> {
    [RootInstance(), ParentInstance()]
  }

  function ChildChain(name: string): seq<Instance> {
    [RootInstance(), ParentInstance(), ChildInstance(name)]
  }

  /** Through the parent's chain, `message` reads the parent's own `name`. */
  lemma ParentMessage(k: TestKeys)
    requires Distinct(k)
    ensures Resolve(ParentContainer(k), ParentChain(), k.message, 2) == Ok(Str(Greeting("ParentComponent", 42)))
  {
    ParentContainerEntries(k);
    var m, chain := ParentContainer(k), ParentChain();
    ComputedRunsOnMostDerivedOwner(m, chain, k.name, 1, 1);
    TestChains("");
    GreetingResolves(m, chain, k, "ParentComponent");
  }

  /**
    Through the child's chain, the provider the parent declared reads the `name` the child
    stores, whatever it currently is, and the `age` only the root provides.
   */
  lemma ChildMessage(k: TestKeys, name: string)
    requires Distinct(k)
    ensures Resolve(ChildContainer(k), ChildChain(name), k.message, 2) == Ok(Str(Greeting(name, 42)))
  {
    ChildContainerEntries(k);
    ChildNameResolves(ChildContainer(k), k, name, 1);
    TestChains(name);
    GreetingResolves(ChildContainer(k), ChildChain(name), k, name);
  }

  /**
    `testInheritanceAndOverrride`: the parent's `message` reads the parent's `name`;
    through the child's chain the same provider reads the child's `name`.
   */
  method InheritanceAndOverride() returns (parentMessage: Result<Value, Failure>, childMessage: Result<Value, Failure>)
    ensures parentMessage == Ok(Str("I'm ParentComponent, age=42"))
    ensures childMessage == Ok(Str("I'm ChildComponent, age=42"))
  {
    var k := DeclareKeys();
    var root, parent, child := BuildChain(k);
    parentMessage := parent.Get(k.message, 2);
    childMessage := child.Get(k.message, 2);
    assert parentMessage == Resolve(ParentContainer(k), ParentChain(), k.message, 2);
    assert childMessage == Resolve(ChildContainer(k), ChildChain("ChildComponent"), k.message, 2);
    ParentMessage(k);
    ChildMessage(k, "ChildComponent");
    ParentGreeting();
    ChildGreeting();
  }

  /** `testMutateSelf`: reassigning the child's stored `name` changes what the parent's provider reads. */
  method MutateSelf() returns (before: Result<Value, Failure>, after: Result<Value, Failure>)
    ensures before == Ok(Str("I'm ChildComponent, age=42"))
    ensures after == Ok(Str("I'm Foo, age=42"))
  {
    var k := DeclareKeys();
    var root, parent, child := BuildChain(k);
    ChildMessage(k, "ChildComponent");
    before := child.Get(k.message, 2);
    SetName(child, "ChildComponent", "Foo");
    after := child.Get(k.message, 2);
    ChildMessage(k, "Foo");
    ChildGreeting();
    FooGreeting();
  }

  /** A `getPattern` provider (`get(.name) + get(.name)` and its two spellings) doubles the name it reads. */
  lemma PatternResolves(m: Table, chain: seq<Instance>, k: TestKeys, key: AnyKey, fuel: nat, name: string)
    requires key in m && m[key].Computed? && m[key].body == Concat(Get(k.name), Get(k.name))
    requires LastOfType(chain, m[key].owner).Some?
    requires Resolve(m, chain, k.name, fuel) == Ok(Str(name))
    ensures Resolve(m, chain, key, fuel + 1) == Ok(Str(name + name))
  {
    var self := chain[LastOfType(chain, m[key].owner).value];
    assert Eval(m, chain, self, Get(k.name), fuel + 1) == Ok(Str(name));
  }

  /** With the child's `name` set to "<>", the three patterns, declared on the parent, give "<><>". */
  lemma PatternOutcomes(k: TestKeys)
    requires Distinct(k)
    ensures Resolve(ChildContainer(k), ChildChain("<>"), k.getPatternA, 2) == Ok(Str("<><>"))
    ensures Resolve(ChildContainer(k), ChildChain("<>"), k.getPatternB, 2) == Ok(Str("<><>"))
    ensures Resolve(ChildContainer(k), ChildChain("<>"), k.getPatternC, 2) == Ok(Str("<><>"))
  {
    ChildContainerEntries(k);
    var m, chain := ChildContainer(k), ChildChain("<>");
    ChildNameResolves(m, k, "<>", 1);
    assert chain[1].ty == ParentType;
    PatternResolves(m, chain, k, k.getPatternA, 1, "<>");
    PatternResolves(m, chain, k, k.getPatternB, 1, "<>");
    PatternResolves(m, chain, k, k.getPatternC, 1, "<>");
    Doubled();
  }

  /** `testGetPatterns`: with the child's `name` set to "<>", all three patterns give "<><>". */
  method GetPatterns() returns (a: Result<Value, Failure>, b: Result<Value, Failure>, c: Result<Value, Failure>)
    ensures a == b == c == Ok(Str("<><>"))
  {
    var k := DeclareKeys();
    var root, parent, child := BuildChain(k);
    SetName(child, "ChildComponent", "<>");
    a := child.Get(k.getPatternA, 2);
    b := child.Get(k.getPatternB, 2);
    c := child.Get(k.getPatternC, 2);
    PatternOutcomes(k);
  }

  /**
    `testPriority`: the root reads its own 10; the parent's custom 20 beats it; the child's
    custom 0 loses to the parent's 20, whose provider runs on the parent instance.
   */
  lemma PriorityOutcomes(k: TestKeys)
    requires Distinct(k)
    ensures Resolve(RootContainer(k), [RootInstance()], k.priorityTest, 0) == Ok(Num(10))
    ensures Resolve(ParentContainer(k), ParentChain(), k.priorityTest, 0) == Ok(Num(20))
    ensures Resolve(ChildContainer(k), ChildChain("ChildComponent"), k.priorityTest, 0) == Ok(Num(20))
  {
    MergeRule(map[], RootTable(k), k.priorityTest);
    ChildContainerEntries(k);
    ComputedRunsOnMostDerivedOwner(RootContainer(k), [RootInstance()], k.priorityTest, 0, 0);
    ComputedRunsOnMostDerivedOwner(ParentContainer(k), ParentChain(), k.priorityTest, 0, 1);
    ComputedRunsOnMostDerivedOwner(ChildContainer(k), ChildChain("ChildComponent"), k.priorityTest, 0, 1);
  }

  method Priority() returns (atRoot: Result<Value, Failure>, atParent: Result<Value, Failure>, atChild: Result<Value, Failure>)
    ensures atRoot == Ok(Num(10)) && atParent == Ok(Num(20)) && atChild == Ok(Num(20))
  {
    var k := DeclareKeys();
    var root, parent, child := BuildChain(k);
    atRoot := root.Get(k.priorityTest, 0);
    atParent := parent.Get(k.priorityTest, 0);
    atChild := child.Get(k.priorityTest, 0);
    PriorityOutcomes(k);
  }

  /**
    `testBind` on the parent: a default-priority bind of `name` replaces the parent's
    default provider; a custom(-1) bind of `age` is ignored; a default bind of `age` wins.
   */
  lemma BindOutcomes(k: TestKeys)
    requires Distinct(k)
    ensures var named := Merged(ParentContainer(k), NameBind(k, Default()));
            var low := Merged(named, map[k.age := Fixed(Custom(-1), Num(-1))]);
            var aged := Merged(low, map[k.age := Fixed(Default(), Num(99))]);
            && Resolve(low, ParentChain(), k.message, 2) == Ok(Str(Greeting("Overridden", 42)))
            && Resolve(aged, ParentChain(), k.message, 2) == Ok(Str(Greeting("Overridden", 99)))
  {
    ParentContainerEntries(k);
    var p := ParentContainer(k);
    SetFixedRule(p, k.name, Default(), Str("Overridden"));
    var named := p[k.name := Fixed(Default(), Str("Overridden"))];
    SetFixedRule(named, k.age, Custom(-1), Num(-1));
    SetFixedRule(named, k.age, Default(), Num(99));
    var aged := named[k.age := Fixed(Default(), Num(99))];
    var chain := ParentChain();
    TestChains("");
    FixedResolvesToValue(named, chain, k.name, 1);
    GreetingResolves(named, chain, k, "Overridden");
    FixedResolvesToValue(aged, chain, k.name, 1);
    FixedResolvesToValue(aged, chain, k.age, 1);
    assert chain[1].ty == ParentType;
    MessageResolves(aged, chain, k, 1, "Overridden", 99);
  }

  method Bind() returns (first: Result<Value, Failure>, second: Result<Value, Failure>)
    ensures first == Ok(Str("I'm Overridden, age=42"))
    ensures second == Ok(Str("I'm Overridden, age=99"))
  {
    var k := DeclareKeys();
    var root, parent, child := BuildChain(k);
    parent.Bind(k.name, Str("Overridden"), Default());
    parent.Bind(k.age, Num(-1), Custom(-1));
    first := parent.Get(k.message, 2);
    parent.Bind(k.age, Num(99), Default());
    second := parent.Get(k.message, 2);
    BindOutcomes(k);
    OverriddenGreeting();
    AgedNinetyNine();
  }

  /** What `bind("Overridden", forKey: .name, priority:)` offers to a container. */
  function NameBind(k: TestKeys, priority: Priority): Table {
    map[k.name := Fixed(priority, Str("Overridden"))]
  }

  /** The parent's container after `bind("Overridden", forKey: .name)` at the given priority. */
  function BoundParent(k: TestKeys, priority: Priority): Table {
    Merged(ParentContainer(k), NameBind(k, priority))
  }

  /**
    A child built on any container that holds the root's `age` and the parent's `message`:
    it keeps those two, and its own `name` wins unless the container's `name` is higher.
   */
  lemma ChildOver(t: Table, k: TestKeys)
    requires Distinct(k)
    requires k.name in t && ServesGreeting(t, k)
    ensures var m := Merged(t, ChildTable(k));
      && ServesGreeting(m, k)
      && k.name in m
      && m[k.name] == (if t[k.name].priority.rawValue > 0 then t[k.name] else Computed(ChildType, Default(), Field("name")))
  {
    MergeRule(t, ChildTable(k), k.name);
    MergeRule(t, ChildTable(k), k.age);
    MergeRule(t, ChildTable(k), k.message);
  }

  /**
    `testBindWithInheritance`, first half: after a default-priority bind of `name` on the
    parent, a child built from it wins the tie with its own `name`.
   */
  lemma ChildOverDefaultBind(k: TestKeys)
    requires Distinct(k)
    ensures Resolve(Merged(BoundParent(k, Default()), ChildTable(k)), ChildChain("ChildComponent"), k.message, 2)
            == Ok(Str(Greeting("ChildComponent", 42)))
  {
    ParentContainerEntries(k);
    var p := ParentContainer(k);
    SetFixedRule(p, k.name, Default(), Str("Overridden"));
    var named := p[k.name := Fixed(Default(), Str("Overridden"))];
    ChildOver(named, k);
    var m := Merged(named, ChildTable(k));
    ChildNameResolves(m, k, "ChildComponent", 1);
    TestChains("ChildComponent");
    GreetingResolves(m, ChildChain("ChildComponent"), k, "ChildComponent");
  }

  /**
    `testBindWithInheritance`, second half: after a test-priority bind of `name` on the
    parent, a child built from it keeps the bound value over its own default provider.
   */
  lemma ChildUnderTestBind(k: TestKeys)
    requires Distinct(k)
    ensures Resolve(Merged(Merged(BoundParent(k, Default()), NameBind(k, Test())), ChildTable(k)),
                    ChildChain("ChildComponent"), k.message, 2)
            == Ok(Str(Greeting("Overridden", 42)))
  {
    ParentContainerEntries(k);
    var p := ParentContainer(k);
    SetFixedRule(p, k.name, Default(), Str("Overridden"));
    var named := p[k.name := Fixed(Default(), Str("Overridden"))];
    SetFixedRule(named, k.name, Test(), Str("Overridden"));
    var tested := named[k.name := Fixed(Test(), Str("Overridden"))];
    ChildOver(tested, k);
    var chain := ChildChain("ChildComponent");
    var m := Merged(tested, ChildTable(k));
    FixedResolvesToValue(m, chain, k.name, 1);
    TestChains("ChildComponent");
    GreetingResolves(m, chain, k, "Overridden");
  }

  /**
    `parent.bind("Overridden", forKey: .name, priority:)`, then a fresh ChildComponent
    under `parent`, and its `message()`.
   */
  method BindThenChildMessage(k: TestKeys, parent: Component, priority: Priority)
    returns (child: Component, message: Result<Value, Failure>)
    requires ChildRequirements(k) <= parent.container.Keys()
    requires parent.Chain() == ParentChain()
    modifies parent.container
    ensures parent.container.combinedMetadata == Merged(old(parent.container.combinedMetadata), NameBind(k, priority))
    ensures fresh(child) && fresh(child.container) && child.Chain() == ChildChain("ChildComponent")
    ensures child.container.combinedMetadata == Merged(parent.container.combinedMetadata, ChildTable(k))
    ensures message == Resolve(child.container.combinedMetadata, ChildChain("ChildComponent"), k.message, 2)
  {
    parent.Bind(k.name, Str("Overridden"), priority);
    child := NewChild(k, parent);
    message := child.Get(k.message, 2);
  }

  /** The two binds of `testBindWithInheritance` on the tests' chain, with a child built after each. */
  method BindTwice(k: TestKeys) returns (first: Result<Value, Failure>, second: Result<Value, Failure>, earlier: Result<Value, Failure>)
    requires Distinct(k)
    ensures first == Resolve(Merged(BoundParent(k, Default()), ChildTable(k)), ChildChain("ChildComponent"), k.message, 2)
    ensures second == Resolve(Merged(Merged(BoundParent(k, Default()), NameBind(k, Test())), ChildTable(k)),
                              ChildChain("ChildComponent"), k.message, 2)
    ensures earlier == first
  {
    ParentContainerEntries(k);
    var root, parent, unused := BuildChain(k);
    var child, later;
    child, first := BindThenChildMessage(k, parent, Default());
    ghost var table := child.container.combinedMetadata;
    later, second := BindThenChildMessage(k, parent, Test());
    assert child.container.combinedMetadata == table;
    earlier := child.Get(k.message, 2);
  }

  method BindWithInheritance() returns (first: Result<Value, Failure>, second: Result<Value, Failure>, earlier: Result<Value, Failure>)
    ensures first == Ok(Str("I'm ChildComponent, age=42"))
    ensures second == Ok(Str("I'm Overridden, age=42"))
    ensures earlier == first
  {
    var k := DeclareKeys();
    first, second, earlier := BindTwice(k);
    ChildOverDefaultBind(k);
    ChildUnderTestBind(k);
    ChildGreeting();
    OverriddenGreeting();
  }

  /** `testBindInChildAndUseInParent`: a bind on the child is seen by the parent's provider run through the child. */
  lemma BindInChildOutcome(k: TestKeys)
    requires Distinct(k)
    ensures Resolve(Merged(ChildContainer(k), NameBind(k, Default())),
                    ChildChain("ChildComponent"), k.message, 2)
            == Ok(Str(Greeting("Overridden", 42)))
  {
    ChildContainerEntries(k);
    var c := ChildContainer(k);
    SetFixedRule(c, k.name, Default(), Str("Overridden"));
    var bound := c[k.name := Fixed(Default(), Str("Overridden"))];
    var chain := ChildChain("ChildComponent");
    FixedResolvesToValue(bound, chain, k.name, 1);
    TestChains("ChildComponent");
    GreetingResolves(bound, chain, k, "Overridden");
  }

  method BindInChildAndUseInParent() returns (before: Result<Value, Failure>, after: Result<Value, Failure>)
    ensures before == Ok(Str("I'm ChildComponent, age=42"))
    ensures after == Ok(Str("I'm Overridden, age=42"))
  {
    var k := DeclareKeys();
    var root, parent, child := BuildChain(k);
    before := child.Get(k.message, 2);
    child.Bind(k.name, Str("Overridden"), Default());
    after := child.Get(k.message, 2);
    ChildMessage(k, "ChildComponent");
    ChildGreeting();
    BindInChildOutcome(k);
    OverriddenGreeting();
  }

  /*
    `testGetWithoutProvideAnnotation`: the root's `message` provider calls a plain helper
    that reads `name`; run for a child, that nested read resolves through the child's chain.
   */
  const PlainRootType := TypeTag("GetWithoutProvideAnnotation.RootComponent")
  const PlainChildType := TypeTag("GetWithoutProvideAnnotation.ChildComponent")

  function PlainRootTable(name: AnyKey, message: AnyKey): Table {
    map[name := Computed(PlainRootType, Default(), Field("name")),
        message := Computed(PlainRootType, Default(), Get(name))]
  }

  function PlainChildTable(name: AnyKey): Table {
    map[name := Computed(PlainChildType, Default(), Field("name"))]
  }

  function PlainChain(): seq<Instance> {
    [Instance(PlainRootType, map["name" := Str("Root")]), Instance(PlainChildType, map["name" := Str("Child")])]
  }

  lemma PlainOutcome(name: AnyKey, message: AnyKey)
    requires name != message
    ensures Resolve(Merged(Merged(map[], PlainRootTable(name, message)), PlainChildTable(name)),
                    PlainChain(), message, 2)
            == Ok(Str("Child"))
  {
    var r := Merged(map[], PlainRootTable(name, message));
    var m := Merged(r, PlainChildTable(name));
    MergeRule(map[], PlainRootTable(name, message), name);
    MergeRule(map[], PlainRootTable(name, message), message);
    MergeRule(r, PlainChildTable(name), name);
    MergeRule(r, PlainChildTable(name), message);
    var chain := PlainChain();
    ComputedRunsOnMostDerivedOwner(m, chain, name, 1, 1);
    ComputedRunsOnMostDerivedOwner(m, chain, message, 2, 0);
    NestedGetUsesCallersTable(m, chain, message, name, 1);
  }

  method GetWithoutProvideAnnotation() returns (message: Result<Value, Failure>)
    ensures message == Ok(Str("Child"))
  {
    var nameKey := new AnyKey.Typed(StringType);
    var messageKey := new AnyKey.Typed(StringType);
    var rm := new ProvidingMetadata(PlainRootType);
    rm.Set(nameKey, Default(), Field("name"));
    rm.Set(messageKey, Default(), Get(nameKey));
    var cm := new ProvidingMetadata(PlainChildType);
    cm.Set(nameKey, Default(), Field("name"));
    var root := new Component.Root(rm, map["name" := Str("Root")]);
    var built := Component.FromParent(root, {messageKey}, cm, map["name" := Str("Child")], true);
    var child := built.value;
    assert child.Chain() == PlainChain();
    message := child.Get(messageKey, 2);
    PlainOutcome(nameKey, messageKey);
  }
}
