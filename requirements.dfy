/**
  The requirement check run when a component is built from its parent
  (Sources/DI/assertRequirements.swift): every key the component reads without
  providing it must already be in the parent's container.
 */
module Requirements {
  import opened Keys
  import opened Containers

  /** The two texts the failing assertion can carry. */
  datatype Message =
    | ContainerIsEmpty
    | KeysNotFound(missing: set<AnyKey>)

  datatype Outcome = Pass | Fail(message: Message)

  /** `message(_:_:)`: the empty-container text, or the keys still missing. */
  function MessageFor(requirements: set<AnyKey>, container: Container): (r: Message)
    reads container
    ensures r == ContainerIsEmpty <==> container.Keys() == {}
    ensures r.KeysNotFound? ==> r.missing == requirements - container.Keys()
  {
    if container.Keys() == {} then ContainerIsEmpty
    else KeysNotFound(requirements - container.Keys())
  }

  /**
    `assertRequirements(_:container:)`: passes exactly when the requirements are a subset
    of the container's keys; otherwise fails with `message`, built only then.
   */
  function AssertRequirements(requirements: set<AnyKey>, container: Container): (r: Outcome)
    reads container
    ensures r == Pass <==> requirements <= container.Keys()
    ensures r.Fail? ==> r.message == MessageFor(requirements, container)
  {
    var missing := requirements - container.Keys();
    if missing == {} then
      assert forall k :: k in requirements ==> k !in missing;
      Pass
    else Fail(MessageFor(requirements, container))
  }

  /** No requirement always passes, even against a container nothing was combined into. */
  lemma NoRequirementsPass(container: Container)
    ensures AssertRequirements({}, container) == Pass
  {
  }

  /**
    When the check fails on a non-empty container, the message names exactly the
    missing keys, and there is at least one.
   */
  lemma FailureNamesMissingKeys(requirements: set<AnyKey>, container: Container)
    requires AssertRequirements(requirements, container).Fail?
    ensures container.Keys() != {} ==>
      AssertRequirements(requirements, container).message == KeysNotFound(requirements - container.Keys())
    ensures requirements - container.Keys() != {}
    ensures container.Keys() == {} ==> requirements != {}
  {
  }
}
