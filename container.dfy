/**
  The resolution engine of Sources/DI/Container.swift: per-component metadata tables,
  the container they are merged into by priority, and lookup of a key against the chain
  of component instances.

  Swift erases the provider's owner type and recovers it with a runtime type test; here
  every computed entry carries its owner as an explicit `TypeTag`, and a provider body
  is a small expression over the owner instance and other keys.
 */
module Containers {
  import opened Wrappers
  import opened Priorities
  import opened Keys

  /** The concrete component type a provider belongs to (the `C` of `ComponentProvidingMetadata<C>`). */
  datatype TypeTag = TypeTag(name: string)

  /** The values the providers of the model produce: Swift `String` and `Int`. */
  datatype Value = Str(s: string) | Num(n: int)

  /**
    A provider body. `Field` reads a stored property of the instance the provider runs on;
    `Get` resolves another key; `Concat` is string concatenation and interpolation.
   */
  datatype Provider =
    | Lit(value: Value)
    | Field(name: string)
    | Get(key: AnyKey)
    | Concat(left: Provider, right: Provider)

  /**
    One table element: `ComponentFunctionElement` (a provider owned by a component type)
    or `FixedValueElement` (a bound value). Both carry a priority.
   */
  datatype Entry =
    | Computed(owner: TypeTag, priority: Priority, body: Provider)
    | Fixed(priority: Priority, value: Value)

  /** A component instance as an element of a chain: its type and its stored properties. */
  datatype Instance = Instance(ty: TypeTag, fields: map<string, Value>)

  /** The `preconditionFailure`s of `get`, and the two ways the model's evaluator can stop. */
  datatype Failure =
    | EmptyContainer
    | KeyNotFound(key: AnyKey)
    | OwnerNotInChain(expected: TypeTag, chain: seq<TypeTag>)
    | NoSuchField(name: string)
    | OutOfFuel

  type Table = map<AnyKey, Entry>

  // ---------------------------------------------------------------------------
  // The merge rule of `combine` and `setFixed`
  // ---------------------------------------------------------------------------

  /** The entry that ends up under `k` when `incoming` is merged into `existing`. */
  function Pick(existing: Table, incoming: Table, k: AnyKey): Entry
    requires k in existing || k in incoming
  {
    if k !in incoming then existing[k]
    else if k !in existing then incoming[k]
    else if AtMost(existing[k].priority, incoming[k].priority) then incoming[k]
    else existing[k]
  }

  /** `existing` after every entry of `incoming` has been offered to it. */
  function Merged(existing: Table, incoming: Table): Table
  {
    map k | k in existing.Keys + incoming.Keys :: Pick(existing, incoming, k)
  }

  /**
    The rule entry by entry: the key set is the union; a key only in `incoming` is
    inserted; a key only in `existing` is untouched; on a clash the incoming entry
    wins when the existing priority is at most its own (ties go to `incoming`) and
    loses when the existing priority is strictly higher.
   */
  lemma MergeRule(existing: Table, incoming: Table, k: AnyKey)
    ensures Merged(existing, incoming).Keys == existing.Keys + incoming.Keys
    ensures k in incoming && k !in existing ==> Merged(existing, incoming)[k] == incoming[k]
    ensures k in existing && k !in incoming ==> Merged(existing, incoming)[k] == existing[k]
    ensures k in existing && k in incoming && existing[k].priority.rawValue <= incoming[k].priority.rawValue
            ==> Merged(existing, incoming)[k] == incoming[k]
    ensures k in existing && k in incoming && existing[k].priority.rawValue > incoming[k].priority.rawValue
            ==> Merged(existing, incoming)[k] == existing[k]
  {
  }

  /** Merging never lowers the priority held under a key. */
  lemma MergeNeverLowersPriority(existing: Table, incoming: Table, k: AnyKey)
    requires k in existing
    ensures k in Merged(existing, incoming)
    ensures existing[k].priority.rawValue <= Merged(existing, incoming)[k].priority.rawValue
  {
  }

  /** Offering the same table a second time changes nothing. */
  lemma MergeIdempotent(existing: Table, incoming: Table)
    ensures Merged(Merged(existing, incoming), incoming) == Merged(existing, incoming)
  {
    var once := Merged(existing, incoming);
    var twice := Merged(once, incoming);
    forall k | k in twice
      ensures k in once && twice[k] == once[k]
    {
      MergeRule(existing, incoming, k);
      MergeRule(once, incoming, k);
    }
  }

  /**
    Two tables registering the same key, merged parent first then child: the child's
    entry wins when its priority is at least the parent's, otherwise the parent's stays.
   */
  lemma LaterTableWinsTies(parent: Table, child: Table, k: AnyKey)
    requires k in parent && k in child
    ensures parent[k].priority.rawValue <= child[k].priority.rawValue
            ==> Merged(Merged(map[], parent), child)[k] == child[k]
    ensures parent[k].priority.rawValue > child[k].priority.rawValue
            ==> Merged(Merged(map[], parent), child)[k] == parent[k]
  {
    MergeRule(map[], parent, k);
    MergeRule(Merged(map[], parent), child, k);
  }

  /**
    `setFixed` in closed form: the fixed entry is written unless the key already holds a
    strictly higher priority, in which case nothing changes.
   */
  lemma SetFixedRule(m: Table, key: AnyKey, priority: Priority, value: Value)
    ensures Merged(m, map[key := Fixed(priority, value)])
            == if key in m && m[key].priority.rawValue > priority.rawValue then m
               else m[key := Fixed(priority, value)]
  {
    var single := map[key := Fixed(priority, value)];
    var expected := if key in m && m[key].priority.rawValue > priority.rawValue then m
                    else m[key := Fixed(priority, value)];
    assert Merged(m, single).Keys == expected.Keys;
    forall k | k in expected
      ensures Merged(m, single)[k] == expected[k]
    {
      MergeRule(m, single, k);
    }
  }

  /** One step of `combine`'s loop: merging one more incoming key. */
  lemma MergeStep(existing: Table, incoming: Table, done: set<AnyKey>, k: AnyKey)
    requires done <= incoming.Keys && k in incoming && k !in done
    ensures var before := Merged(existing, Restrict(incoming, done));
            Merged(existing, Restrict(incoming, done + {k}))
            == (if k in before && !AtMost(before[k].priority, incoming[k].priority) then before
                else before[k := incoming[k]])
  {
    var before := Merged(existing, Restrict(incoming, done));
    var after := Merged(existing, Restrict(incoming, done + {k}));
    var expected := if k in before && !AtMost(before[k].priority, incoming[k].priority) then before
                    else before[k := incoming[k]];
    assert after.Keys == expected.Keys;
    forall j | j in after
      ensures after[j] == expected[j]
    {
    }
  }

  function Restrict(t: Table, ks: set<AnyKey>): (r: Table)
    ensures r.Keys == t.Keys * ks
    ensures forall k :: k in r ==> r[k] == t[k]
  {
    map k | k in t.Keys * ks :: t[k]
  }

  // ---------------------------------------------------------------------------
  // ComponentProvidingMetadata<C>
  // ---------------------------------------------------------------------------

  /** The providers one component type registers, all owned by that type. */
  class ProvidingMetadata {
    const owner: TypeTag
    var table: Table

    /** Every computed entry of the table belongs to the table's component type. */
    ghost predicate Valid()
      reads this
    {
      forall k :: k in table ==> table[k].Computed? && table[k].owner == owner
    }

    constructor (owner: TypeTag)
      ensures this.owner == owner && table == map[] && Valid()
    {
      this.owner := owner;
      table := map[];
    }

    /**
      `setter(for:priority:)` with its returned closure applied to a provider: stores a
      computed entry owned by this table's type; a second registration of the same key
      replaces the first.
     */
    method Set(key: AnyKey, priority: Priority, provide: Provider)
      requires Valid()
      modifies this
      ensures Valid()
      ensures table == old(table)[key := Computed(owner, priority, provide)]
      ensures table[key].priority == priority
    {
      table := table[key := Computed(owner, priority, provide)];
    }
  }

  // ---------------------------------------------------------------------------
  // Container
  // ---------------------------------------------------------------------------

  class Container {
    var combinedMetadata: Table

    /** `Container.init()`: no entries yet. */
    constructor ()
      ensures combinedMetadata == map[]
    {
      combinedMetadata := map[];
    }

    /** `keys`. */
    function Keys(): set<AnyKey>
      reads this
    {
      combinedMetadata.Keys
    }

    /** A private copy (Swift copies the struct on assignment). */
    method Copy() returns (c: Container)
      ensures fresh(c) && c.combinedMetadata == combinedMetadata
    {
      c := new Container();
      c.combinedMetadata := combinedMetadata;
    }

    /**
      `combine(metadata:)`: offers every entry of the table to the container; an absent
      key is inserted, a present one replaced when its priority is at most the new one.
     */
    method Combine(metadata: ProvidingMetadata)
      modifies this
      ensures combinedMetadata == Merged(old(combinedMetadata), metadata.table)
    {
      var incoming := metadata.table;
      var remaining := incoming.Keys;
      while remaining != {}
        invariant remaining <= incoming.Keys
        invariant combinedMetadata == Merged(old(combinedMetadata), Restrict(incoming, incoming.Keys - remaining))
        decreases remaining
      {
        var key :| key in remaining;
        var element := incoming[key];
        MergeStep(old(combinedMetadata), incoming, incoming.Keys - remaining, key);
        assert incoming.Keys - remaining + {key} == incoming.Keys - (remaining - {key});
        if key in combinedMetadata {
          var found := combinedMetadata[key];
          if AtMost(found.priority, element.priority) {
            combinedMetadata := combinedMetadata[key := element];
          }
        } else {
          combinedMetadata := combinedMetadata[key := element];
        }
        remaining := remaining - {key};
      }
      assert Restrict(incoming, incoming.Keys) == incoming;
    }

    /** `setFixed(_:priority:value:)`: the merge rule applied to one fixed entry. */
    method SetFixed(key: AnyKey, priority: Priority, value: Value)
      modifies this
      ensures combinedMetadata == Merged(old(combinedMetadata), map[key := Fixed(priority, value)])
    {
      ghost var single := map[key := Fixed(priority, value)];
      if key in combinedMetadata {
        var found := combinedMetadata[key];
        if AtMost(found.priority, priority) {
          combinedMetadata := combinedMetadata[key := Fixed(priority, value)];
        }
      } else {
        combinedMetadata := combinedMetadata[key := Fixed(priority, value)];
      }
      assert combinedMetadata == Merged(old(combinedMetadata), single);
    }

    /** `get(_:with:)`: resolves `key` for the chain `components`. */
    function Get(key: AnyKey, components: seq<Instance>, fuel: nat): (r: Result<Value, Failure>)
      reads this
      ensures r.Ok? ==> key in Keys()
      ensures Keys() == {} ==> r == Err(EmptyContainer)
      ensures key in Keys() && combinedMetadata[key].Fixed? ==> r == Ok(combinedMetadata[key].value)
    {
      Resolve(combinedMetadata, components, key, fuel)
    }
  }

  // ---------------------------------------------------------------------------
  // Lookup
  // ---------------------------------------------------------------------------

  /**
    The scan of `components.reversed()`: the index of the most-derived chain element
    whose type is `ty`, if there is one.
   */
  function LastOfType(chain: seq<Instance>, ty: TypeTag): (r: Option<nat>)
    ensures r.Some? ==> r.value < |chain| && chain[r.value].ty == ty
    ensures r.Some? ==> forall j :: r.value < j < |chain| ==> chain[j].ty != ty
    ensures r.None? <==> forall j :: 0 <= j < |chain| ==> chain[j].ty != ty
  {
    if |chain| == 0 then None
    else if chain[|chain| - 1].ty == ty then Some(|chain| - 1)
    else LastOfType(chain[..|chain| - 1], ty)
  }

  /** The types of a chain, as the owner-not-found failure reports them. */
  function TypesOf(chain: seq<Instance>): (r: seq<TypeTag>)
    ensures |r| == |chain| && forall i :: 0 <= i < |chain| ==> r[i] == chain[i].ty
  {
    seq(|chain|, i requires 0 <= i < |chain| => chain[i].ty)
  }

  /** Decimal text of an integer, as Swift string interpolation writes an `Int`. */
  function Decimal(n: int): string
    decreases if n < 0 then 1 - n else n
  {
    if n < 0 then "-" + Decimal(-n)
    else if n < 10 then [Digit(n)]
    else Decimal(n / 10) + [Digit(n % 10)]
  }

  function Digit(d: int): char
    requires 0 <= d < 10
  {
    "0123456789"[d]
  }

  function Render(v: Value): string
  {
    match v
    case Str(s) => s
    case Num(n) => Decimal(n)
  }

  /**
    `get`: an absent key fails ("Container is empty" when nothing was ever combined);
    a fixed entry yields its value; a computed entry runs its provider on the
    most-derived instance of its owner type in the chain. Nested `Get`s inside the
    provider are resolved against the SAME table and the SAME full chain. `fuel` bounds
    the nesting of `Get`s.
   */
  function Resolve(m: Table, chain: seq<Instance>, key: AnyKey, fuel: nat): (r: Result<Value, Failure>)
    ensures r.Ok? ==> key in m
    ensures key !in m ==> r.Err? && (r.error == EmptyContainer <==> m == map[])
    decreases fuel, 1
  {
    if key !in m then Err(if m == map[] then EmptyContainer else KeyNotFound(key))
    else match m[key]
      case Fixed(_, value) => Ok(value)
      case Computed(owner, _, body) =>
        match LastOfType(chain, owner)
        case None => Err(OwnerNotInChain(owner, TypesOf(chain)))
        case Some(i) => Eval(m, chain, chain[i], body, fuel)
  }

  /** Runs a provider body on the instance `self`. */
  function Eval(m: Table, chain: seq<Instance>, self: Instance, body: Provider, fuel: nat): (r: Result<Value, Failure>)
    ensures body.Lit? ==> r == Ok(body.value)
    ensures body.Get? && fuel == 0 ==> r == Err(OutOfFuel)
    ensures body.Concat? && r.Ok? ==> r.value.Str?
    decreases fuel, 0, body
  {
    match body
    case Lit(v) => Ok(v)
    case Field(name) => if name in self.fields then Ok(self.fields[name]) else Err(NoSuchField(name))
    case Get(key) => if fuel == 0 then Err(OutOfFuel) else Resolve(m, chain, key, fuel - 1)
    case Concat(l, r) =>
      match Eval(m, chain, self, l, fuel)
      case Err(e) => Err(e)
      case Ok(a) =>
        match Eval(m, chain, self, r, fuel)
        case Err(e) => Err(e)
        case Ok(b) => Ok(Str(Render(a) + Render(b)))
  }

  /** An absent key fails, with the empty-container failure exactly when the table is empty. */
  lemma AbsentKeyFails(m: Table, chain: seq<Instance>, key: AnyKey, fuel: nat)
    requires key !in m
    ensures Resolve(m, chain, key, fuel).Err?
    ensures Resolve(m, chain, key, fuel).error == EmptyContainer <==> m == map[]
    ensures m != map[] ==> Resolve(m, chain, key, fuel).error == KeyNotFound(key)
  {
  }

  /** A fixed entry resolves to its value, whatever the chain. */
  lemma FixedResolvesToValue(m: Table, chain: seq<Instance>, key: AnyKey, fuel: nat)
    requires key in m && m[key].Fixed?
    ensures Resolve(m, chain, key, fuel) == Ok(m[key].value)
  {
  }

  /**
    A computed entry runs on the chain element at index `i` whenever that element has the
    owner type and no later element has it.
   */
  lemma ComputedRunsOnMostDerivedOwner(m: Table, chain: seq<Instance>, key: AnyKey, fuel: nat, i: nat)
    requires key in m && m[key].Computed?
    requires i < |chain| && chain[i].ty == m[key].owner
    requires forall j :: i < j < |chain| ==> chain[j].ty != m[key].owner
    ensures Resolve(m, chain, key, fuel) == Eval(m, chain, chain[i], m[key].body, fuel)
  {
    var r := LastOfType(chain, m[key].owner);
    assert r.Some?;
    assert r.value == i;
  }

  /** A computed entry whose owner type is nowhere in the chain is a fatal failure naming both. */
  lemma ComputedWithoutOwnerFails(m: Table, chain: seq<Instance>, key: AnyKey, fuel: nat)
    requires key in m && m[key].Computed?
    requires forall j :: 0 <= j < |chain| ==> chain[j].ty != m[key].owner
    ensures Resolve(m, chain, key, fuel) == Err(OwnerNotInChain(m[key].owner, TypesOf(chain)))
  {
  }

  /**
    Chain threading: a provider that reads another key resolves it in the caller's table
    and chain, so it sees whatever entry that table holds, however derived.
   */
  lemma NestedGetUsesCallersTable(m: Table, chain: seq<Instance>, key: AnyKey, inner: AnyKey, fuel: nat)
    requires key in m && m[key].Computed? && m[key].body == Get(inner)
    requires exists j :: 0 <= j < |chain| && chain[j].ty == m[key].owner
    ensures Resolve(m, chain, key, fuel + 1) == Resolve(m, chain, inner, fuel)
  {
    var r := LastOfType(chain, m[key].owner);
    assert r.Some?;
  }

  /** More fuel never changes a result that did not run out of fuel. */
  lemma {:induction false} ResolveFuelMonotone(m: Table, chain: seq<Instance>, key: AnyKey, fuel: nat, more: nat)
    requires fuel <= more
    requires Resolve(m, chain, key, fuel) != Err(OutOfFuel)
    ensures Resolve(m, chain, key, more) == Resolve(m, chain, key, fuel)
    decreases fuel, 1
  {
    if key in m && m[key].Computed? {
      var r := LastOfType(chain, m[key].owner);
      if r.Some? {
        EvalFuelMonotone(m, chain, chain[r.value], m[key].body, fuel, more);
      }
    }
  }

  lemma {:induction false} EvalFuelMonotone(m: Table, chain: seq<Instance>, self: Instance, body: Provider, fuel: nat, more: nat)
    requires fuel <= more
    requires Eval(m, chain, self, body, fuel) != Err(OutOfFuel)
    ensures Eval(m, chain, self, body, more) == Eval(m, chain, self, body, fuel)
    decreases fuel, 0, body
  {
    match body
    case Lit(_) =>
    case Field(_) =>
    case Get(k) =>
      ResolveFuelMonotone(m, chain, k, fuel - 1, more - 1);
    case Concat(l, r) =>
      EvalFuelMonotone(m, chain, self, l, fuel, more);
      if Eval(m, chain, self, l, fuel).Ok? {
        EvalFuelMonotone(m, chain, self, r, fuel, more);
      }
  }
}
