/**
  How the macros read keys out of syntax: the normalised spelling of a key expression, the
  key an attribute names, and the keys a body reads through bare `get(...)` calls.
 */
module ExtractKeys {
  import opened Wrappers
  import opened Syntax

  /** A key as the macros see it: its normalised text, which alone decides equality and order. */
  datatype ExtractedKey = ExtractedKey(description: string)

  /**
    `ExtractedKey.init`: a member access on `AnyKey`, on `DI.AnyKey`, or without a base is
    spelled `.name`; every other expression keeps its own text.
   */
  function Normalize(e: Expr): (r: ExtractedKey)
    ensures e.Member? && e.base.None? ==> r.description == "." + e.name
    ensures e.Member? && e.base == Some(Ref("AnyKey")) ==> r.description == "." + e.name
    ensures !e.Member? ==> r.description == Text(e)
  {
    if e.Member? then
      match e.base
      case None => ExtractedKey("." + e.name)
      case Some(Ref(name)) =>
        if name == "AnyKey" then ExtractedKey("." + e.name) else ExtractedKey(Text(e))
      case Some(Member(Some(inner), "AnyKey")) =>
        if Text(inner) == "DI" then ExtractedKey("." + e.name) else ExtractedKey(Text(e))
      case Some(_) => ExtractedKey(Text(e))
    else ExtractedKey(Text(e))
  }

  /** The three spellings of a key declared on `AnyKey` normalise to one key. */
  lemma AnyKeySpellingsAgree(name: string)
    ensures Normalize(Member(Some(Ref("AnyKey")), name)) == Normalize(Member(None, name))
    ensures Normalize(Member(Some(Member(Some(Ref("DI")), "AnyKey")), name)) == Normalize(Member(None, name))
    ensures Normalize(Member(None, name)).description == "." + name
  {
  }

  /**
    A member access on anything other than `AnyKey` or `DI.AnyKey` keeps its full text,
    base included.
   */
  lemma OtherBasesKeepText(base: Expr, name: string)
    requires base != Ref("AnyKey")
    requires !(base.Member? && base.base.Some? && base.name == "AnyKey" && Text(base.base.value) == "DI")
    ensures Normalize(Member(Some(base), name)).description == Text(base) + "." + name
  {
  }

  /** The six spellings the key extraction is specified against. */
  lemma NormalizeExamples()
    ensures Normalize(Member(Some(Ref("AnyKey")), "foo")).description == ".foo"
    ensures Normalize(Member(None, "foo")).description == ".foo"
    ensures Normalize(Ref("foo")).description == "foo"
    ensures Normalize(Member(Some(Member(Some(Ref("DI")), "AnyKey")), "foo")).description == ".foo"
    ensures Normalize(Member(Some(Ref("MyKeys")), "foo")).description == "MyKeys.foo"
    ensures Normalize(Member(Some(Member(Some(Ref("MyModule")), "MyKeys")), "foo")).description == "MyModule.MyKeys.foo"
  {
    OtherBasesKeepText(Ref("MyKeys"), "foo");
    OtherBasesKeepText(Member(Some(Ref("MyModule")), "MyKeys"), "foo");
  }

  /** `<` on extracted keys: the order of their texts. */
  predicate KeyLess(a: ExtractedKey, b: ExtractedKey)
    ensures KeyLess(a, b) ==> a != b
  {
    Less(a.description, b.description)
  }

  /** `KeyLess` is a strict total order, so sorting a set of keys has one answer. */
  lemma KeyLessIsStrictTotalOrder(a: ExtractedKey, b: ExtractedKey, c: ExtractedKey)
    ensures !KeyLess(a, a)
    ensures KeyLess(a, b) ==> !KeyLess(b, a)
    ensures KeyLess(a, b) && KeyLess(b, c) ==> KeyLess(a, c)
    ensures a == b || KeyLess(a, b) || KeyLess(b, a)
  {
    LessIsStrictTotalOrder(a.description, b.description, c.description);
  }

  /** An attribute such as `@Provides(.name, priority: .test)`; `arguments` is its labelled list, if it has one. */
  datatype Attribute = Attribute(name: string, arguments: Option<seq<Argument>>)

  /** `extractKey(from:)`: the normalised first argument, or nothing when there is none. */
  function ExtractKey(attribute: Attribute): (r: Option<ExtractedKey>)
    ensures r.None? <==> attribute.arguments.None? || attribute.arguments.value == []
    ensures r.Some? ==> r.value == Normalize(attribute.arguments.value[0].value)
  {
    match attribute.arguments
    case Some(arguments) => if |arguments| > 0 then Some(Normalize(arguments[0].value)) else None
    case None => None
  }

  /** A call that `GetCallVisitor` records: a bare `get` callee and at least one argument. */
  predicate IsGetCall(e: Expr) {
    e.Call? && e.callee == Ref("get") && |e.arguments| > 0
  }

  /** The first arguments of the bare `get(...)` calls in `e`, in pre-order (a call before the calls inside it). */
  function GetCalls(e: Expr): (r: seq<Expr>)
    ensures IsGetCall(e) ==> |r| > 0 && r[0] == e.arguments[0].value
    decreases e, 1
  {
    match e
    case Ref(_) => []
    case Lit(_) => []
    case Member(base, _) => if base.Some? then GetCalls(base.value) else []
    case Call(callee, arguments) =>
      (if IsGetCall(e) then [arguments[0].value] else []) + GetCalls(callee) + GetCallsInElements(e, 0)
    case Subscript(base, _) => GetCalls(base) + GetCallsInElements(e, 0)
    case MacroUse(_, _) => GetCallsInElements(e, 0)
    case Tuple(_) => GetCallsInElements(e, 0)
    case StringLiteral(_) => GetCallsInChildren(e, 0)
    case Interpolation(_) => GetCallsInElements(e, 0)
    case Node(_) => GetCallsInChildren(e, 0)
  }

  function GetCallsInElements(e: Expr, i: nat): seq<Expr>
    requires HasElements(e) && i <= |Elements(e)|
    decreases e, 0, |Elements(e)| - i
  {
    if i == |Elements(e)| then [] else GetCalls(Elements(e)[i].value) + GetCallsInElements(e, i + 1)
  }

  function GetCallsInChildren(e: Expr, i: nat): seq<Expr>
    requires HasChildren(e) && i <= |Children(e)|
    decreases e, 0, |Children(e)| - i
  {
    if i == |Children(e)| then [] else GetCalls(Children(e)[i]) + GetCallsInChildren(e, i + 1)
  }

  /** The keys a body reads through bare `get(...)` calls. */
  function KeysIn(e: Expr): (r: set<ExtractedKey>)
    ensures IsGetCall(e) ==> Normalize(e.arguments[0].value) in r
  {
    set x | x in GetCalls(e) :: Normalize(x)
  }

  /** The visitor behind `extractKeysUsedInGet`: it records, in visiting order, the first argument of each bare `get` call. */
  class GetCallVisitor {
    var keys: seq<Expr>

    constructor()
      ensures keys == []
    {
      keys := [];
    }

    /** `walk`: visits `e` and everything under it, continuing into the children of every call. */
    method Walk(e: Expr)
      modifies this
      ensures keys == old(keys) + GetCalls(e)
      decreases e
    {
      match e
      case Ref(_) =>
      case Lit(_) =>
      case Member(base, _) =>
        if base.Some? {
          Walk(base.value);
        }
      case Call(callee, arguments) =>
        if IsGetCall(e) {
          keys := keys + [arguments[0].value];
        }
        Walk(callee);
        WalkElements(e, arguments);
      case Subscript(base, arguments) =>
        Walk(base);
        WalkElements(e, arguments);
      case MacroUse(_, arguments) =>
        WalkElements(e, arguments);
      case Tuple(elements) =>
        WalkElements(e, elements);
      case StringLiteral(segments) =>
        WalkChildren(e, segments);
      case Interpolation(elements) =>
        WalkElements(e, elements);
      case Node(children) =>
        WalkChildren(e, children);
    }

    /** The labelled elements of `e`, left to right. */
    method WalkElements(e: Expr, elements: seq<Argument>)
      requires HasElements(e) && elements == Elements(e)
      modifies this
      ensures keys == old(keys) + GetCallsInElements(e, 0)
      decreases e, 0
    {
      var start := keys;
      for i := 0 to |elements|
        invariant keys + GetCallsInElements(e, i) == start + GetCallsInElements(e, 0)
      {
        Walk(elements[i].value);
      }
      assert GetCallsInElements(e, |elements|) == [];
    }

    /** The segments of a string literal or the children of a node, left to right. */
    method WalkChildren(e: Expr, children: seq<Expr>)
      requires HasChildren(e) && children == Children(e)
      modifies this
      ensures keys == old(keys) + GetCallsInChildren(e, 0)
      decreases e, 0
    {
      var start := keys;
      for i := 0 to |children|
        invariant keys + GetCallsInChildren(e, i) == start + GetCallsInChildren(e, 0)
      {
        Walk(children[i]);
      }
      assert GetCallsInChildren(e, |children|) == [];
    }
  }

  /** `extractKeysUsedInGet(in:)`: the normalised keys of every bare `get(...)` call in `body`. */
  method ExtractKeysUsedInGet(body: Expr) returns (keys: set<ExtractedKey>)
    ensures keys == KeysIn(body)
  {
    var visitor := new GetCallVisitor();
    visitor.Walk(body);
    keys := set x | x in visitor.keys :: Normalize(x);
  }

  /** A bare `get(k)` contributes its key, and so does every `get` nested in its arguments. */
  lemma GetCallContributes(key: Expr, rest: seq<Argument>)
    ensures Normalize(key) in KeysIn(Call(Ref("get"), [Argument(None, key)] + rest))
    ensures KeysIn(key) <= KeysIn(Call(Ref("get"), [Argument(None, key)] + rest))
  {
    var e := Call(Ref("get"), [Argument(None, key)] + rest);
    assert GetCalls(e) == [key] + GetCalls(Ref("get")) + GetCallsInElements(e, 0);
    assert GetCallsInElements(e, 0) == GetCalls(key) + GetCallsInElements(e, 1);
  }

  /** A `self.get(k)` call is not a bare `get`: it contributes nothing of its own. */
  lemma SelfGetNotCollected(arguments: seq<Argument>)
    ensures var e := Call(Member(Some(Ref("self")), "get"), arguments);
            GetCalls(e) == GetCallsInElements(e, 0)
  {
  }

  /** `self.get(.name) + get(.name)`, as in the tests' `getPatternA`, reads `.name` once. */
  lemma PatternAReadsName()
    ensures KeysIn(Node([Call(Member(Some(Ref("self")), "get"), [Argument(None, Member(None, "name"))]),
                         Lit("+"),
                         Call(Ref("get"), [Argument(None, Member(None, "name"))])]))
            == {ExtractedKey(".name")}
  {
    var selfGet := Call(Member(Some(Ref("self")), "get"), [Argument(None, Member(None, "name"))]);
    var get := Call(Ref("get"), [Argument(None, Member(None, "name"))]);
    var e := Node([selfGet, Lit("+"), get]);
    assert GetCallsInElements(selfGet, 0) == [];
    assert GetCalls(selfGet) == [];
    assert GetCallsInElements(get, 0) == [];
    assert GetCalls(get) == [Member(None, "name")];
    assert GetCallsInChildren(e, 2) == [Member(None, "name")];
    assert GetCallsInChildren(e, 1) == GetCalls(Lit("+")) + GetCallsInChildren(e, 2);
    assert GetCallsInChildren(e, 0) == GetCalls(selfGet) + GetCallsInChildren(e, 1);
    assert GetCalls(e) == [Member(None, "name")];
    assert Normalize(Member(None, "name")) == ExtractedKey(".name");
  }
}
