/**
  Dependency keys (Sources/DI/Key.swift). A key is an object; two keys are the same
  slot only when they are the same object, whatever value type they stand for.
 */
module Keys {

  /** The Swift types a key can be declared for; the model keeps only their names. */
  datatype ValueType = ValueType(name: string)

  /** The dynamic class of a key object: a bare `AnyKey` or a `Key<Instance>`. */
  datatype KeyClass = AnyKeyClass | KeyOf(instance: ValueType)

  class AnyKey {
    const dynamicClass: KeyClass

    /** `AnyKey.init()`. */
    constructor Plain()
      ensures dynamicClass == AnyKeyClass
    {
      dynamicClass := AnyKeyClass;
    }

    /** `Key<Instance>.init()` and `Key<Instance>.init(_ instanceType:)`: the type only fixes the class. */
    constructor Typed(instance: ValueType)
      ensures dynamicClass == KeyOf(instance)
    {
      dynamicClass := KeyOf(instance);
    }
  }

  /**
    `AnyKey.==`: the same dynamic class and the same object identity. The class test
    adds nothing, since one object has one class: equality is identity.
   */
  function Equal(lhs: AnyKey, rhs: AnyKey): (r: bool)
    ensures r <==> lhs == rhs
  {
    lhs.dynamicClass == rhs.dynamicClass && lhs == rhs
  }

  /** Two keys of the same declared type created one after another are two slots. */
  method NewKeys(instance: ValueType) returns (first: AnyKey, second: AnyKey)
    ensures first.dynamicClass == second.dynamicClass == KeyOf(instance)
    ensures !Equal(first, second)
  {
    first := new AnyKey.Typed(instance);
    second := new AnyKey.Typed(instance);
  }
}
