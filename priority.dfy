/**
  The priority attached to every provider entry (Sources/DI/Priority.swift).
  A priority is a Swift `Int` wrapped in a struct and ordered by that integer.
 */
module Priorities {

  /** Swift's `Int` on the 64-bit platforms the package targets. */
  newtype Int = x: int | -0x8000_0000_0000_0000 <= x < 0x8000_0000_0000_0000

  datatype Priority = Priority(rawValue: Int)

  /** `Priority.<`: compares the raw values. */
  predicate Less(lhs: Priority, rhs: Priority) {
    lhs.rawValue < rhs.rawValue
  }

  /** `<=` as `Comparable` derives it from `<`: `!(rhs < lhs)`. */
  predicate AtMost(lhs: Priority, rhs: Priority) {
    !Less(rhs, lhs)
  }

  /** `Priority.default`. */
  function Default(): (p: Priority)
    ensures p.rawValue == 0
  {
    Priority(0)
  }

  /** `Priority.test`. */
  function Test(): (p: Priority)
    ensures p.rawValue == 10
    ensures Less(Default(), p)
  {
    Priority(10)
  }

  /** `Priority.custom(_:)`. */
  function Custom(value: Int): (p: Priority)
    ensures p.rawValue == value
  {
    Priority(value)
  }

  /** The derived `<=` is the integer `<=` on raw values. */
  lemma AtMostIsRawOrder(a: Priority, b: Priority)
    ensures AtMost(a, b) <==> a.rawValue <= b.rawValue
  {
  }

  /** `<` is a strict total order: irreflexive, transitive, and any two distinct priorities are ordered. */
  lemma LessIsStrictTotalOrder(a: Priority, b: Priority, c: Priority)
    ensures !Less(a, a)
    ensures Less(a, b) && Less(b, c) ==> Less(a, c)
    ensures a != b ==> Less(a, b) || Less(b, a)
    ensures Less(a, b) ==> !Less(b, a)
  {
  }

  /** `<=` is total, and two priorities are both `<=` each other exactly when they are equal. */
  lemma AtMostIsTotalOrder(a: Priority, b: Priority, c: Priority)
    ensures AtMost(a, b) || AtMost(b, a)
    ensures AtMost(a, b) && AtMost(b, a) <==> a == b
    ensures AtMost(a, b) && AtMost(b, c) ==> AtMost(a, c)
  {
  }

  /** `custom` preserves and reflects the integer order. */
  lemma CustomOrder(x: Int, y: Int)
    ensures Less(Custom(x), Custom(y)) <==> x < y
    ensures Custom(x) == Custom(y) <==> x == y
  {
  }
}
