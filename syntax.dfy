/**
  The slice of Swift syntax the macros inspect, as an abstract expression tree. Trivia
  (whitespace and comments) is not represented, so an expression's text is exactly its
  rendering by `Text`.
 */
module Syntax {
  import opened Wrappers

  /**
    `Ref` is a bare identifier (`DeclReferenceExprSyntax`), `Lit` any single token kept as
    text, `Member` a member access with or without a base (`MemberAccessExprSyntax`),
    `Call` a function call (`FunctionCallExprSyntax`), `Subscript` a subscript call
    `subscripted[arguments]` (`SubscriptCallExprSyntax`), `MacroUse` a freestanding macro
    `#macro(arguments)` (`MacroExpansionExprSyntax`), `Tuple` a tuple or parenthesised
    expression (`TupleExprSyntax`), `StringLiteral` a string literal whose segments are
    literal text (`Lit`) and interpolations, `Interpolation` one interpolation `\(elements)`
    (`ExpressionSegmentSyntax`), and `Node` any other syntax (operators, statements,
    blocks), of which only the children matter.
   */
  datatype Expr =
    | Ref(name: string)
    | Lit(token: string)
    | Member(base: Option<Expr>, name: string)
    | Call(callee: Expr, arguments: seq<Argument>)
    | Subscript(subscripted: Expr, arguments: seq<Argument>)
    | MacroUse(macro: string, arguments: seq<Argument>)
    | Tuple(elements: seq<Argument>)
    | StringLiteral(segments: seq<Expr>)
    | Interpolation(elements: seq<Argument>)
    | Node(children: seq<Expr>)

  /**
    An element of a labelled list (`LabeledExprSyntax`): a call's, subscript's or macro's
    argument, a tuple's element, or an expression inside an interpolation.
   */
  datatype Argument = Argument(labelText: Option<string>, value: Expr)

  /** The forms whose direct parts are labelled elements. */
  predicate HasElements(e: Expr) {
    e.Call? || e.Subscript? || e.MacroUse? || e.Tuple? || e.Interpolation?
  }

  /** The labelled elements directly under `e`. */
  function Elements(e: Expr): seq<Argument>
    requires HasElements(e)
  {
    if e.Tuple? || e.Interpolation? then e.elements else e.arguments
  }

  /** The forms whose direct parts are plain expressions. */
  predicate HasChildren(e: Expr) {
    e.StringLiteral? || e.Node?
  }

  /** The expressions directly under a string literal or a node. */
  function Children(e: Expr): seq<Expr>
    requires HasChildren(e)
  {
    if e.StringLiteral? then e.segments else e.children
  }

  /** The source text of an expression. */
  function Text(e: Expr): string
    decreases e, 1
  {
    match e
    case Ref(name) => name
    case Lit(token) => token
    case Member(base, name) => (if base.Some? then Text(base.value) else "") + "." + name
    case Call(callee, _) => Text(callee) + "(" + ElementsText(e, 0) + ")"
    case Subscript(base, _) => Text(base) + "[" + ElementsText(e, 0) + "]"
    case MacroUse(macro, _) => "#" + macro + "(" + ElementsText(e, 0) + ")"
    case Tuple(_) => "(" + ElementsText(e, 0) + ")"
    case StringLiteral(_) => "\"" + ChildrenText(e, 0) + "\""
    case Interpolation(_) => "\\(" + ElementsText(e, 0) + ")"
    case Node(_) => ChildrenText(e, 0)
  }

  /** Elements `i..` of `e`, separated by `, `. */
  function ElementsText(e: Expr, i: nat): string
    requires HasElements(e) && i <= |Elements(e)|
    decreases e, 0, |Elements(e)| - i
  {
    if i == |Elements(e)| then ""
    else
      var a := Elements(e)[i];
      (if i == 0 then "" else ", ")
      + (if a.labelText.Some? then a.labelText.value + ": " else "")
      + Text(a.value)
      + ElementsText(e, i + 1)
  }

  /** Children `i..` of `e`: the segments of a string literal side by side, those of a node separated by single spaces. */
  function ChildrenText(e: Expr, i: nat): string
    requires HasChildren(e) && i <= |Children(e)|
    decreases e, 0, |Children(e)| - i
  {
    if i == |Children(e)| then ""
    else (if i == 0 || e.StringLiteral? then "" else " ") + Text(Children(e)[i]) + ChildrenText(e, i + 1)
  }

  predicate HasPrefix(s: string, prefix: string) {
    |prefix| <= |s| && s[..|prefix|] == prefix
  }

  lemma HasPrefixOfConcat(prefix: string, rest: string)
    ensures HasPrefix(prefix + rest, prefix)
    ensures (prefix + rest)[|prefix|..] == rest
  {
  }

  /** Lexicographic order on strings, character by character, a proper prefix first. */
  predicate Less(a: string, b: string)
    ensures Less(a, b) ==> a != b
    ensures |a| < |b| && b[..|a|] == a ==> Less(a, b)
  {
    if |a| == 0 then |b| > 0
    else |b| > 0 && (a[0] < b[0] || (a[0] == b[0] && Less(a[1..], b[1..])))
  }

  lemma {:induction false} LessIrreflexive(a: string)
    ensures !Less(a, a)
  {
    if |a| > 0 {
      LessIrreflexive(a[1..]);
    }
  }

  lemma {:induction false} LessTransitive(a: string, b: string, c: string)
    requires Less(a, b) && Less(b, c)
    ensures Less(a, c)
  {
    if |a| > 0 && a[0] == b[0] && b[0] == c[0] {
      LessTransitive(a[1..], b[1..], c[1..]);
    }
  }

  lemma {:induction false} LessTotal(a: string, b: string)
    ensures a == b || Less(a, b) || Less(b, a)
  {
    if |a| > 0 && |b| > 0 && a[0] == b[0] {
      LessTotal(a[1..], b[1..]);
      if a[1..] == b[1..] {
        assert a == [a[0]] + a[1..] && b == [b[0]] + b[1..];
      }
    }
  }

  /** `Less` is a strict total order. */
  lemma LessIsStrictTotalOrder(a: string, b: string, c: string)
    ensures !Less(a, a)
    ensures Less(a, b) ==> !Less(b, a)
    ensures Less(a, b) && Less(b, c) ==> Less(a, c)
    ensures a == b || Less(a, b) || Less(b, a)
  {
    LessIrreflexive(a);
    if Less(a, b) && Less(b, a) {
      LessTransitive(a, b, a);
      LessIrreflexive(a);
    }
    if Less(a, b) && Less(b, c) {
      LessTransitive(a, b, c);
    }
    LessTotal(a, b);
  }

  /**
    Every occurrence of `target`, scanned left to right without overlap, replaced by
    `replacement`; an empty `target` leaves the text as it is.
   */
  function ReplaceAll(s: string, target: string, replacement: string): (r: string)
    ensures !Contains(s, target) ==> r == s
    ensures |target| > 0 && HasPrefix(s, target) ==> HasPrefix(r, replacement)
    decreases |s|
  {
    if |target| == 0 || |s| < |target| then s
    else if HasPrefix(s, target) then replacement + ReplaceAll(s[|target|..], target, replacement)
    else [s[0]] + ReplaceAll(s[1..], target, replacement)
  }

  /** `target` occurs somewhere in `s`. */
  predicate Contains(s: string, target: string)
    decreases |s|
  {
    HasPrefix(s, target) || (|s| > 0 && Contains(s[1..], target))
  }

  lemma ReplaceAllLeading(target: string, rest: string, replacement: string)
    requires |target| > 0
    ensures ReplaceAll(target + rest, target, replacement) == replacement + ReplaceAll(rest, target, replacement)
  {
    HasPrefixOfConcat(target, rest);
  }
}
