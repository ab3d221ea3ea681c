/**
  Component values and their ancestor chains. A component owns a container and the
  value copies of its ancestors; a lookup through a component passes the whole chain
  `parents + [self]` to its container.

  The library's `initContainer(parent:)` and `bind(_:forKey:priority:)` are not modelled
  from their code: construction here is what the generated `initContainer(parent:)` asks
  of the engine (requirement check, copy of the parent's container, the own table merged
  on top) and `Bind` is `setFixed` on the component's own container.
 */
module Components {
  import opened Wrappers
  import opened Priorities
  import opened Keys
  import opened Containers
  import opened Requirements

  class Component {
    const ty: TypeTag
    var fields: map<string, Value>
    var container: Container
    var parents: seq<Instance>

    /** This component as an element of a chain. */
    function Self(): Instance
      reads this
    {
      Instance(ty, fields)
    }

    /** The chain every lookup from this component passes on: ancestors, then itself. */
    function Chain(): seq<Instance>
      reads this
    {
      parents + [Self()]
    }

    /** `initContainer(parent: nil)`: a root's container is its own table merged into an empty one. */
    constructor Root(metadata: ProvidingMetadata, fields: map<string, Value>)
      ensures ty == metadata.owner && this.fields == fields && parents == []
      ensures fresh(container) && container.combinedMetadata == Merged(map[], metadata.table)
    {
      ty := metadata.owner;
      this.fields := fields;
      var c := new Container();
      c.Combine(metadata);
      container := c;
      parents := [];
    }

    /**
      `initContainer(parent:)` past its requirement check: the child starts from a copy of
      the parent's container, merges its own table on top and records the parent. This is
      all that runs when assertions are compiled out, whatever the parent's container holds.
     */
    constructor Child(parent: Component, metadata: ProvidingMetadata, fields: map<string, Value>)
      ensures ty == metadata.owner && this.fields == fields
      ensures parents == parent.parents + [parent.Self()]
      ensures fresh(container)
      ensures container.combinedMetadata == Merged(parent.container.combinedMetadata, metadata.table)
    {
      ty := metadata.owner;
      this.fields := fields;
      var c := parent.container.Copy();
      c.Combine(metadata);
      container := c;
      parents := parent.parents + [parent.Self()];
    }

    /**
      `initContainer(parent:)` in full. With assertions enabled, `assertRequirements` stops
      construction with its message unless the parent's container holds every requirement;
      with assertions compiled out, the child is built regardless.
     */
    static method FromParent(parent: Component, requirements: set<AnyKey>, metadata: ProvidingMetadata,
                             fields: map<string, Value>, assertionsEnabled: bool)
      returns (r: Result<Component, Message>)
      ensures r.Err? <==> assertionsEnabled && !(requirements <= parent.container.Keys())
      ensures r.Err? ==> r.error == MessageFor(requirements, parent.container)
      ensures r.Ok? ==> fresh(r.value) && fresh(r.value.container)
      ensures r.Ok? ==> r.value.ty == metadata.owner && r.value.fields == fields
      ensures r.Ok? ==> r.value.parents == parent.parents + [parent.Self()]
      ensures r.Ok? ==> r.value.container.combinedMetadata == Merged(parent.container.combinedMetadata, metadata.table)
    {
      var outcome := AssertRequirements(requirements, parent.container);
      if assertionsEnabled && outcome.Fail? {
        return Err(outcome.message);
      }
      var child := new Component.Child(parent, metadata, fields);
      r := Ok(child);
    }

    /** `bind(_:forKey:priority:)`: a fixed value under the merge rule, in this component's own container. */
    method Bind(key: AnyKey, value: Value, priority: Priority)
      modifies container
      ensures container.combinedMetadata == Merged(old(container.combinedMetadata), map[key := Fixed(priority, value)])
    {
      container.SetFixed(key, priority, value);
    }

    /** `get(_:)` on a component: its own container, its full chain. */
    function Get(key: AnyKey, fuel: nat): (r: Result<Value, Failure>)
      reads this, container
      ensures r.Ok? ==> key in container.Keys()
      ensures container.Keys() == {} ==> r == Err(EmptyContainer)
      ensures key in container.Keys() && container.combinedMetadata[key].Fixed?
              ==> r == Ok(container.combinedMetadata[key].value)
    {
      container.Get(key, Chain(), fuel)
    }
  }
}
