/**
  The checks and bookkeeping of the `@Component` member macro: which members provide which
  keys, which keys a component needs from its ancestors, when an initializer lacks the
  `initContainer(parent:)` call, and which call arguments should read the container instead.
 */
module ComponentMacro {
  import opened Wrappers
  import opened Syntax
  import opened ExtractKeys

  /** `ProvidesMacroArguments`: the key a member provides and, if written, its priority expression. */
  datatype ProvidesArguments = ProvidesArguments(key: ExtractedKey, priority: Option<Expr>)

  /** `FoundProvides`: a providing member and the text by which the component body calls it. */
  datatype FoundProvides = FoundProvides(arguments: ProvidesArguments, callExpression: string)

  /** The members of a component declaration, with the syntax each one holds in source order. */
  datatype Member =
    | FunctionDecl(attributes: seq<Attribute>, name: string, body: Option<Expr>)
    | VariableDecl(attributes: seq<Attribute>, pattern: string, initializer: Option<Expr>, accessor: Option<Expr>)
    | InitializerDecl(parameters: seq<Expr>, statements: Option<seq<Expr>>)
    | OtherDecl(parts: seq<Expr>)

  datatype Declaration = StructDecl(members: seq<Member>) | OtherDeclGroup

  /**
    The diagnostics the macro emits, each with what its fix-it would put in place:
    the completed initializer body, the replacement text of a call argument, or the
    sorted texts of the keys a root component cannot obtain.
   */
  datatype Diagnostic =
    | InitContainerNotCalled(fixedBody: seq<Expr>)
    | PrefersContainer(expression: Expr, replacement: string)
    | MissingRequiredValues(keys: seq<string>)

  datatype Expansion = Expansion(
    requirements: seq<ExtractedKey>,
    providings: seq<FoundProvides>,
    synthesizesInit: bool,
    diagnostics: seq<Diagnostic>)

  // ---------------------------------------------------------------------------------------
  // extractProvides

  /** What an `@Provides` attribute says: its key, and a priority only from a second argument labelled `priority`. */
  function ProvidesOf(attribute: Attribute): (r: Option<ProvidesArguments>)
    ensures r.None? <==> ExtractKey(attribute).None?
    ensures r.Some? ==> r.value.key == ExtractKey(attribute).value
    ensures r.Some? ==> (r.value.priority.Some? <==>
              |attribute.arguments.value| >= 2 && attribute.arguments.value[1].labelText == Some("priority"))
    ensures r.Some? && r.value.priority.Some? ==> r.value.priority.value == attribute.arguments.value[1].value
  {
    match ExtractKey(attribute)
    case None => None
    case Some(key) =>
      var arguments := attribute.arguments.value;
      if |arguments| >= 2 && arguments[1].labelText == Some("priority") then
        Some(ProvidesArguments(key, Some(arguments[1].value)))
      else
        Some(ProvidesArguments(key, None))
  }

  /** `extractProvides(attributes:)`: the first attribute named `Provides`, read by `ProvidesOf`. */
  function ExtractProvides(attributes: seq<Attribute>): (r: Option<ProvidesArguments>)
    ensures r.Some? ==> exists i | 0 <= i < |attributes| :: attributes[i].name == "Provides"
  {
    if attributes == [] then None
    else if attributes[0].name == "Provides" then ProvidesOf(attributes[0])
    else ExtractProvides(attributes[1..])
  }

  /**
    Without a `Provides` attribute there is nothing; with several, only the first counts,
    even when it names no key and a later one does.
   */
  lemma {:induction false} ExtractProvidesUsesFirst(attributes: seq<Attribute>)
    ensures (forall i | 0 <= i < |attributes| :: attributes[i].name != "Provides") ==> ExtractProvides(attributes).None?
    ensures forall i | 0 <= i < |attributes| && attributes[i].name == "Provides" &&
                       (forall j | 0 <= j < i :: attributes[j].name != "Provides") ::
              ExtractProvides(attributes) == ProvidesOf(attributes[i])
  {
    if attributes != [] {
      ExtractProvidesUsesFirst(attributes[1..]);
      forall i | 0 < i < |attributes| && attributes[i].name == "Provides" &&
                 (forall j | 0 <= j < i :: attributes[j].name != "Provides")
        ensures ExtractProvides(attributes) == ProvidesOf(attributes[i])
      {
        assert attributes[0].name != "Provides";
        assert attributes[1..][i - 1] == attributes[i];
        assert forall j | 0 <= j < i - 1 :: attributes[1..][j] == attributes[j + 1];
      }
      if forall i | 0 <= i < |attributes| :: attributes[i].name != "Provides" {
        assert forall i | 0 <= i < |attributes| - 1 :: attributes[1..][i] == attributes[i + 1];
      }
    }
  }

  /** The priority text written into the generated metadata: the given expression, else `.default`. */
  function PriorityText(arguments: ProvidesArguments): (r: string)
    ensures arguments.priority.None? ==> r == ".default"
    ensures arguments.priority.Some? ==> r == Text(arguments.priority.value)
  {
    match arguments.priority
    case None => ".default"
    case Some(priority) => Text(priority)
  }

  /** A priority written as anything but the labelled second argument is ignored. */
  lemma PriorityNeedsLabel(key: Expr, second: Expr, rest: seq<Argument>)
    ensures var unlabelled := Attribute("Provides", Some([Argument(None, key), Argument(None, second)] + rest));
            ExtractProvides([unlabelled]) == Some(ProvidesArguments(Normalize(key), None))
    ensures var labelled := Attribute("Provides", Some([Argument(None, key), Argument(Some("priority"), second)] + rest));
            ExtractProvides([labelled]) == Some(ProvidesArguments(Normalize(key), Some(second)))
  {
  }

  // ---------------------------------------------------------------------------------------
  // The per-member bookkeeping of `expansion`

  /** The keys a member reads with `get`: a function's body or a variable's accessor block. */
  function KeysRead(m: Member): (r: set<ExtractedKey>)
    ensures m.InitializerDecl? || m.OtherDecl? ==> r == {}
    ensures m.FunctionDecl? && m.body.Some? && IsGetCall(m.body.value) ==> Normalize(m.body.value.arguments[0].value) in r
  {
    match m
    case FunctionDecl(_, _, body) => if body.Some? then KeysIn(body.value) else {}
    case VariableDecl(_, _, _, accessor) => if accessor.Some? then KeysIn(accessor.value) else {}
    case InitializerDecl(_, _) => {}
    case OtherDecl(_) => {}
  }

  /** What a member provides, with the text that calls it: `name()` for a function, the pattern for a variable. */
  function ProvidingOf(m: Member): Option<FoundProvides> {
    match m
    case FunctionDecl(attributes, name, _) =>
      var arguments := ExtractProvides(attributes);
      if arguments.Some? then Some(FoundProvides(arguments.value, name + "()")) else None
    case VariableDecl(attributes, pattern, _, _) =>
      var arguments := ExtractProvides(attributes);
      if arguments.Some? then Some(FoundProvides(arguments.value, pattern)) else None
    case InitializerDecl(_, _) => None
    case OtherDecl(_) => None
  }

  /** `InitContainerCallVisitor`: somewhere in `e` is a call whose callee is the bare name `initContainer`. */
  predicate CallsInitContainer(e: Expr)
    ensures e.Call? && e.callee == Ref("initContainer") ==> CallsInitContainer(e)
    ensures e.Ref? || e.Lit? ==> !CallsInitContainer(e)
    decreases e, 1
  {
    match e
    case Ref(_) => false
    case Lit(_) => false
    case Member(base, _) => base.Some? && CallsInitContainer(base.value)
    case Call(callee, _) => callee == Ref("initContainer") || CallsInitContainer(callee) || CallsInitContainerInElements(e, 0)
    case Subscript(base, _) => CallsInitContainer(base) || CallsInitContainerInElements(e, 0)
    case MacroUse(_, _) => CallsInitContainerInElements(e, 0)
    case Tuple(_) => CallsInitContainerInElements(e, 0)
    case StringLiteral(_) => CallsInitContainerInChildren(e, 0)
    case Interpolation(_) => CallsInitContainerInElements(e, 0)
    case Node(_) => CallsInitContainerInChildren(e, 0)
  }

  predicate CallsInitContainerInElements(e: Expr, i: nat)
    requires HasElements(e) && i <= |Elements(e)|
    decreases e, 0, |Elements(e)| - i
  {
    i < |Elements(e)| && (CallsInitContainer(Elements(e)[i].value) || CallsInitContainerInElements(e, i + 1))
  }

  predicate CallsInitContainerInChildren(e: Expr, i: nat)
    requires HasChildren(e) && i <= |Children(e)|
    decreases e, 0, |Children(e)| - i
  {
    i < |Children(e)| && (CallsInitContainer(Children(e)[i]) || CallsInitContainerInChildren(e, i + 1))
  }

  /** The statement appended to an initializer that lacks it. */
  function InitContainerCall(isRoot: bool): Expr {
    Call(Ref("initContainer"), [Argument(Some("parent"), Ref(if isRoot then "nil" else "parent"))])
  }

  /** The appended statement is a call of `initContainer` with the single argument `parent:`. */
  lemma InitContainerCallShape(isRoot: bool)
    ensures Text(InitContainerCall(isRoot)) == "initContainer" + "(" + ("parent" + ": " + (if isRoot then "nil" else "parent")) + ")"
  {
    var e := InitContainerCall(isRoot);
    assert ElementsText(e, 1) == "";
    assert ElementsText(e, 0) == "" + ("parent" + ": ") + Text(Ref(if isRoot then "nil" else "parent")) + "";
  }

  /** The appended statement reads `initContainer(parent: nil)` for a root and `initContainer(parent: parent)` otherwise. */
  lemma InitContainerCallText()
    ensures Text(InitContainerCall(true)) == "initContainer(parent: nil)"
    ensures Text(InitContainerCall(false)) == "initContainer(parent: parent)"
  {
    InitContainerCallShape(true);
    InitContainerCallShape(false);
  }

  /** Some statement in the list calls `initContainer`. */
  predicate AnyCallsInitContainer(es: seq<Expr>) {
    exists i | 0 <= i < |es| :: CallsInitContainer(es[i])
  }

  /** The diagnostic an initializer earns: none when it calls `initContainer` or has no body; else its body with the call appended. */
  function InitFix(m: Member, isRoot: bool): (r: seq<Diagnostic>)
    ensures |r| <= 1
    ensures |r| == 1 <==> m.InitializerDecl? && m.statements.Some? && !AnyCallsInitContainer(m.parameters + m.statements.value)
    ensures |r| == 1 ==> r[0] == InitContainerNotCalled(m.statements.value + [InitContainerCall(isRoot)])
  {
    match m
    case InitializerDecl(parameters, body) =>
      if body.Some? && !AnyCallsInitContainer(parameters + body.value) then
        [InitContainerNotCalled(body.value + [InitContainerCall(isRoot)])]
      else []
    case _ => []
  }

  /** The body a fix-it proposes does call `initContainer`, so applying it silences the diagnostic. */
  lemma FixedBodyCallsInitContainer(m: Member, isRoot: bool)
    requires |InitFix(m, isRoot)| == 1
    ensures AnyCallsInitContainer(m.parameters + InitFix(m, isRoot)[0].fixedBody)
  {
    var fixed := m.parameters + InitFix(m, isRoot)[0].fixedBody;
    assert fixed[|fixed| - 1] == InitContainerCall(isRoot);
  }

  // ---------------------------------------------------------------------------------------
  // The same bookkeeping over a prefix of the members, as the loop of `expansion` builds it

  function UsedKeys(ms: seq<Member>): set<ExtractedKey> {
    if ms == [] then {} else UsedKeys(ms[..|ms| - 1]) + KeysRead(ms[|ms| - 1])
  }

  function Providings(ms: seq<Member>): seq<FoundProvides> {
    if ms == [] then []
    else
      var last := ProvidingOf(ms[|ms| - 1]);
      Providings(ms[..|ms| - 1]) + (if last.Some? then [last.value] else [])
  }

  function InitDiagnostics(ms: seq<Member>, isRoot: bool): seq<Diagnostic> {
    if ms == [] then [] else InitDiagnostics(ms[..|ms| - 1], isRoot) + InitFix(ms[|ms| - 1], isRoot)
  }

  predicate HasInitializer(ms: seq<Member>) {
    exists i | 0 <= i < |ms| :: ms[i].InitializerDecl?
  }

  function ProvidedKeys(ps: seq<FoundProvides>): set<ExtractedKey> {
    set p | p in ps :: p.arguments.key
  }

  /** The keys a component must find in its parent: read through `get`, and provided by no member. */
  function RequiredKeys(ms: seq<Member>): set<ExtractedKey> {
    UsedKeys(ms) - ProvidedKeys(Providings(ms))
  }

  /** The member provides the key `k`. */
  predicate ProvidesKey(m: Member, k: ExtractedKey) {
    ProvidingOf(m).Some? && ProvidingOf(m).value.arguments.key == k
  }

  /** A key read through `get` is required exactly when no member provides it. */
  lemma RequiredIffReadAndNotProvided(ms: seq<Member>, k: ExtractedKey)
    ensures k in RequiredKeys(ms) <==>
            (exists i | 0 <= i < |ms| :: k in KeysRead(ms[i])) && (forall i | 0 <= i < |ms| :: !ProvidesKey(ms[i], k))
  {
    UsedKeysAreRead(ms, k);
    ProvidingsAreProvided(ms, k);
  }

  lemma {:induction false} UsedKeysAreRead(ms: seq<Member>, k: ExtractedKey)
    ensures k in UsedKeys(ms) <==> exists i | 0 <= i < |ms| :: k in KeysRead(ms[i])
  {
    if ms != [] {
      var init := ms[..|ms| - 1];
      UsedKeysAreRead(init, k);
      if k in UsedKeys(init) {
        var i :| 0 <= i < |init| && k in KeysRead(init[i]);
        assert ms[i] == init[i];
      }
      if exists i | 0 <= i < |ms| :: k in KeysRead(ms[i]) {
        var i :| 0 <= i < |ms| && k in KeysRead(ms[i]);
        if i < |init| {
          assert init[i] == ms[i];
        }
      }
    }
  }

  lemma ProvidedKeysConcat(a: seq<FoundProvides>, b: seq<FoundProvides>)
    ensures ProvidedKeys(a + b) == ProvidedKeys(a) + ProvidedKeys(b)
  {
  }

  lemma {:induction false} ProvidingsAreProvided(ms: seq<Member>, k: ExtractedKey)
    ensures k in ProvidedKeys(Providings(ms)) <==> exists i | 0 <= i < |ms| :: ProvidesKey(ms[i], k)
  {
    if ms != [] {
      var init := ms[..|ms| - 1];
      var last := ProvidingOf(ms[|ms| - 1]);
      ProvidingsAreProvided(init, k);
      ProvidedKeysConcat(Providings(init), if last.Some? then [last.value] else []);
      assert k in ProvidedKeys(Providings(ms)) <==> k in ProvidedKeys(Providings(init)) || ProvidesKey(ms[|ms| - 1], k);
      if exists i | 0 <= i < |init| :: ProvidesKey(init[i], k) {
        var i :| 0 <= i < |init| && ProvidesKey(init[i], k);
        assert ms[i] == init[i];
      }
      if exists i | 0 <= i < |ms| :: ProvidesKey(ms[i], k) {
        var i :| 0 <= i < |ms| && ProvidesKey(ms[i], k);
        if i < |init| {
          assert init[i] == ms[i];
        }
      }
    }
  }

  // ---------------------------------------------------------------------------------------
  // CallArgumentsVisitor

  /** The argument text with one leading `self.` removed. */
  function StripSelf(raw: string): (r: string)
    ensures !HasPrefix(raw, "self.") ==> r == raw
    ensures |r| == |raw| || |r| == |raw| - 5
  {
    if StartsWithSelf(raw) then raw[5..] else raw
  }

  /** The text begins with `self.`, spelled out character by character. */
  predicate StartsWithSelf(raw: string) {
    |raw| >= 5 && raw[0] == 's' && raw[1] == 'e' && raw[2] == 'l' && raw[3] == 'f' && raw[4] == '.'
  }

  lemma StartsWithSelfIsPrefix(raw: string)
    ensures StartsWithSelf(raw) <==> HasPrefix(raw, "self.")
  {
    if StartsWithSelf(raw) {
      assert raw[..5] == "self.";
    }
  }

  /** Only a leading `self.` goes, and only once: the rest of the text is kept. */
  lemma StripSelfKeepsRest(raw: string)
    ensures HasPrefix(raw, "self.") ==> raw == "self." + StripSelf(raw)
    ensures !HasPrefix(raw, "self.") ==> StripSelf(raw) == raw
    ensures StripSelf("self." + raw) == raw
  {
    StartsWithSelfIsPrefix(raw);
    StartsWithSelfIsPrefix("self." + raw);
    HasPrefixOfConcat("self.", raw);
  }

  /** An argument text refers to a provider when it is its call expression, or that followed by `.` and more. */
  predicate Matches(text: string, callExpression: string) {
    text == callExpression || HasPrefix(text, callExpression + ".")
  }

  /** Text that continues the call expression matches only at the end or at a `.`: `fooValue` is not `foo`. */
  lemma MatchesIff(callExpression: string, rest: string)
    ensures Matches(callExpression + rest, callExpression) <==> rest == [] || rest[0] == '.'
  {
    if rest != [] && rest[0] == '.' {
      assert (callExpression + rest)[..|callExpression| + 1] == callExpression + ".";
    }
    if HasPrefix(callExpression + rest, callExpression + ".") {
      assert (callExpression + rest)[|callExpression|] == '.';
    }
  }

  /** The first providing whose call expression the text matches. */
  function FirstMatch(providings: seq<FoundProvides>, text: string): (r: Option<nat>)
    ensures r.Some? ==> r.value < |providings| && |providings[r.value].callExpression| <= |text|
  {
    if providings == [] then None
    else if Matches(text, providings[0].callExpression) then Some(0)
    else
      match FirstMatch(providings[1..], text)
      case None => None
      case Some(i) => Some(i + 1)
  }

  /** `FirstMatch` finds a match exactly when there is one, and no earlier providing matches. */
  lemma {:induction false} FirstMatchIsFirst(providings: seq<FoundProvides>, text: string)
    ensures var r := FirstMatch(providings, text);
      && (r.None? <==> forall i | 0 <= i < |providings| :: !Matches(text, providings[i].callExpression))
      && (r.Some? ==> Matches(text, providings[r.value].callExpression))
      && (r.Some? ==> forall j | 0 <= j < r.value :: !Matches(text, providings[j].callExpression))
  {
    if providings != [] && !Matches(text, providings[0].callExpression) {
      FirstMatchIsFirst(providings[1..], text);
      assert forall i | 1 <= i < |providings| :: providings[1..][i - 1] == providings[i];
    }
  }

  /** `get(key)`, the text a fix-it puts where the provider was called. */
  function GetText(p: FoundProvides): string {
    "get(" + p.arguments.key.description + ")"
  }

  /**
    The fix-it text: the call expression at the head of the argument (after a `self.`, if
    any) becomes `get(key)`, and the rest of the text is kept.
   */
  function Rewrite(raw: string, p: FoundProvides): (r: string)
    requires |p.callExpression| <= |StripSelf(raw)|
    ensures |r| == |raw| - |p.callExpression| + |GetText(p)|
  {
    var text := StripSelf(raw);
    raw[..|raw| - |text|] + GetText(p) + text[|p.callExpression|..]
  }

  /** The rewrite puts `get(key)` in place of the call expression and keeps everything after it. */
  lemma RewriteReplacesHead(p: FoundProvides, rest: string)
    requires rest == [] || rest[0] == '.'
    requires !HasPrefix(p.callExpression + rest, "self.")
    ensures Matches(StripSelf(p.callExpression + rest), p.callExpression)
    ensures Rewrite(p.callExpression + rest, p) == GetText(p) + rest
  {
    var raw := p.callExpression + rest;
    MatchesIff(p.callExpression, rest);
    StripSelfKeepsRest(raw);
    assert raw[..|raw| - |StripSelf(raw)|] == [];
    assert raw[|p.callExpression|..] == rest;
  }

  /** Behind a leading `self.`, the same rewrite, with the `self.` kept. */
  lemma RewriteKeepsSelf(p: FoundProvides, rest: string)
    requires rest == [] || rest[0] == '.'
    ensures Matches(StripSelf("self." + p.callExpression + rest), p.callExpression)
    ensures Rewrite("self." + p.callExpression + rest, p) == "self." + GetText(p) + rest
  {
    var text := p.callExpression + rest;
    var raw := "self." + p.callExpression + rest;
    assert raw == "self." + text;
    MatchesIff(p.callExpression, rest);
    StripSelfKeepsRest(text);
    assert raw[..|raw| - |text|] == "self.";
    assert text[|p.callExpression|..] == rest;
  }

  /** The fix-it as the source computes it: every occurrence of the call expression replaced. */
  function RewriteAsWritten(raw: string, p: FoundProvides): (r: string)
    ensures !Contains(raw, p.callExpression) ==> r == raw
    ensures |p.callExpression| > 0 && HasPrefix(raw, p.callExpression) ==> HasPrefix(r, GetText(p))
  {
    ReplaceAll(raw, p.callExpression, GetText(p))
  }

  /** When the call expression occurs only at the head, the two fix-its agree. */
  lemma RewritesAgreeOnSingleOccurrence(p: FoundProvides, rest: string)
    requires |p.callExpression| > 0
    requires !Contains(rest, p.callExpression)
    requires !HasPrefix(p.callExpression + rest, "self.")
    requires Matches(p.callExpression + rest, p.callExpression)
    ensures RewriteAsWritten(p.callExpression + rest, p) == Rewrite(p.callExpression + rest, p)
  {
    MatchesIff(p.callExpression, rest);
    RewriteReplacesHead(p, rest);
    ReplaceAllLeading(p.callExpression, rest, GetText(p));
  }

  /** The providing behind a `foo` variable whose key is `.foo`. */
  function FooProviding(): FoundProvides {
    FoundProvides(ProvidesArguments(ExtractedKey(".foo"), None), "foo")
  }

  /** Replacing every `foo` in `foo.fooBar` also rewrites the `foo` that starts `fooBar`. */
  lemma ReplaceAllInFooFooBar(replacement: string)
    ensures ReplaceAll("foo.fooBar", "foo", replacement) == replacement + "." + replacement + "Bar"
  {
    assert "foo.fooBar" == "foo" + ".fooBar";
    ReplaceAllLeading("foo", ".fooBar", replacement);
    assert ".fooBar"[1..] == "fooBar";
    assert ReplaceAll(".fooBar", "foo", replacement) == "." + ReplaceAll("fooBar", "foo", replacement);
    assert "fooBar" == "foo" + "Bar";
    ReplaceAllLeading("foo", "Bar", replacement);
    assert ReplaceAll("Bar", "foo", replacement) == "Bar";
  }

  /** The argument `foo.fooBar`: a member access whose base is the provider `foo`. */
  lemma FooBarArgument()
    ensures Text(Member(Some(Ref("foo")), "fooBar")) == "foo.fooBar" == "foo" + ".fooBar"
    ensures !HasPrefix("foo.fooBar", "self.")
    ensures StripSelf("foo.fooBar") == "foo.fooBar"
    ensures Matches("foo.fooBar", "foo")
  {
    assert "foo.fooBar"[0] == 'f';
    assert "foo.fooBar"[..4] == "foo.";
  }

  lemma FooGetText()
    ensures GetText(FooProviding()) == "get(.foo)"
  {
  }

  /**
    As written, the rewrite also replaces the call expression inside other names: for the
    argument `foo.fooBar` against a provider `foo`, it proposes `get(.foo).get(.foo)Bar`.
   */
  lemma RewriteAsWrittenHitsOtherNames()
    ensures Matches(StripSelf("foo.fooBar"), "foo")
    ensures RewriteAsWritten("foo.fooBar", FooProviding()) == "get(.foo)" + "." + "get(.foo)" + "Bar"
  {
    FooBarArgument();
    FooGetText();
    ReplaceAllInFooFooBar("get(.foo)");
  }

  /** The corrected rewrite turns the same argument into `get(.foo).fooBar`. */
  lemma RewriteKeepsOtherNames()
    ensures Matches(StripSelf("foo.fooBar"), "foo")
    ensures Rewrite("foo.fooBar", FooProviding()) == "get(.foo)" + ".fooBar"
  {
    FooBarArgument();
    FooGetText();
    RewriteReplacesHead(FooProviding(), ".fooBar");
  }

  /** What the visitor does at one call argument: a diagnostic if it refers to a provider. */
  function Check(providings: seq<FoundProvides>, value: Expr): (r: Option<Diagnostic>)
    ensures r.Some? ==> r.value.PrefersContainer? && r.value.expression == value
    ensures providings == [] ==> r.None?
  {
    var raw := Text(value);
    match FirstMatch(providings, StripSelf(raw))
    case None => None
    case Some(i) => Some(PrefersContainer(value, Rewrite(raw, providings[i])))
  }

  /**
    An argument is reported exactly when its text, less a leading `self.`, matches some
    provider; the report names the argument and carries the rewrite for the first such
    provider.
   */
  lemma CheckReportsFirstMatch(providings: seq<FoundProvides>, value: Expr)
    ensures Check(providings, value).Some? <==>
            exists i | 0 <= i < |providings| :: Matches(StripSelf(Text(value)), providings[i].callExpression)
    ensures forall i | 0 <= i < |providings| && Matches(StripSelf(Text(value)), providings[i].callExpression) &&
                       (forall j | 0 <= j < i :: !Matches(StripSelf(Text(value)), providings[j].callExpression)) ::
              Check(providings, value) == Some(PrefersContainer(value, Rewrite(Text(value), providings[i])))
  {
    FirstMatchIsFirst(providings, StripSelf(Text(value)));
  }

  /**
    The diagnostics of `CallArgumentsVisitor` over `e`, in visiting order. A labelled
    element (of a call, subscript, macro or interpolation) that refers to a provider is
    reported and not entered; one that does not is entered; the elements of a tuple are
    neither reported nor entered.
   */
  function Fixes(providings: seq<FoundProvides>, e: Expr): (r: seq<Diagnostic>)
    ensures providings == [] ==> r == []
    ensures e.Tuple? ==> r == []
    decreases e, 1
  {
    match e
    case Ref(_) => []
    case Lit(_) => []
    case Member(base, _) => if base.Some? then Fixes(providings, base.value) else []
    case Call(callee, _) => Fixes(providings, callee) + ArgumentFixes(providings, e, 0)
    case Subscript(base, _) => Fixes(providings, base) + ArgumentFixes(providings, e, 0)
    case MacroUse(_, _) => ArgumentFixes(providings, e, 0)
    case Tuple(_) => []
    case StringLiteral(_) => ChildFixes(providings, e, 0)
    case Interpolation(_) => ArgumentFixes(providings, e, 0)
    case Node(_) => ChildFixes(providings, e, 0)
  }

  /** What the visitor makes of one labelled element: its own diagnostic, or else those found inside it. */
  function ArgumentFix(providings: seq<FoundProvides>, value: Expr): (r: seq<Diagnostic>)
    ensures providings == [] ==> r == []
    decreases value, 2
  {
    var here := Check(providings, value);
    if here.Some? then [here.value] else Fixes(providings, value)
  }

  function ArgumentFixes(providings: seq<FoundProvides>, e: Expr, i: nat): (r: seq<Diagnostic>)
    requires HasElements(e) && i <= |Elements(e)|
    ensures providings == [] ==> r == []
    decreases e, 0, |Elements(e)| - i
  {
    if i == |Elements(e)| then [] else ArgumentFix(providings, Elements(e)[i].value) + ArgumentFixes(providings, e, i + 1)
  }

  function ChildFixes(providings: seq<FoundProvides>, e: Expr, i: nat): (r: seq<Diagnostic>)
    requires HasChildren(e) && i <= |Children(e)|
    ensures providings == [] ==> r == []
    decreases e, 0, |Children(e)| - i
  {
    if i == |Children(e)| then [] else Fixes(providings, Children(e)[i]) + ChildFixes(providings, e, i + 1)
  }

  function FixesAll(providings: seq<FoundProvides>, es: seq<Expr>): seq<Diagnostic> {
    if es == [] then [] else Fixes(providings, es[0]) + FixesAll(providings, es[1..])
  }

  /** An attribute as the syntax walk sees it: a call of its name with its arguments. */
  function AttributeSyntax(a: Attribute): Expr {
    if a.arguments.Some? then Call(Ref(a.name), a.arguments.value) else Ref(a.name)
  }

  /** The expressions of a member, in source order. */
  function MemberSyntax(m: Member): seq<Expr> {
    match m
    case FunctionDecl(attributes, _, body) =>
      seq(|attributes|, i requires 0 <= i < |attributes| => AttributeSyntax(attributes[i]))
      + (if body.Some? then [body.value] else [])
    case VariableDecl(attributes, _, initializer, accessor) =>
      seq(|attributes|, i requires 0 <= i < |attributes| => AttributeSyntax(attributes[i]))
      + (if initializer.Some? then [initializer.value] else [])
      + (if accessor.Some? then [accessor.value] else [])
    case InitializerDecl(parameters, body) => parameters + (if body.Some? then body.value else [])
    case OtherDecl(parts) => parts
  }

  /** The expressions of a member block, member after member. */
  function BlockSyntax(ms: seq<Member>): seq<Expr> {
    if ms == [] then [] else MemberSyntax(ms[0]) + BlockSyntax(ms[1..])
  }

  lemma Regroup(before: seq<Diagnostic>, here: seq<Diagnostic>, rest: seq<Diagnostic>)
    ensures before + here + rest == before + (here + rest)
  {
  }

  /** `CallArgumentsVisitor`: walks a member block and collects the "prefer the container" diagnostics. */
  class CallArgumentsVisitor {
    const providings: seq<FoundProvides>
    var diagnostics: seq<Diagnostic>

    constructor(providings: seq<FoundProvides>)
      ensures this.providings == providings && diagnostics == []
    {
      this.providings := providings;
      diagnostics := [];
    }

    method Walk(e: Expr)
      modifies this
      ensures diagnostics == old(diagnostics) + Fixes(providings, e)
      decreases e, 2
    {
      match e
      case Ref(_) =>
      case Lit(_) =>
      case Member(base, _) =>
        if base.Some? {
          Walk(base.value);
        }
      case Call(callee, _) =>
        ghost var before := diagnostics;
        Walk(callee);
        VisitArguments(e, 0);
        Regroup(before, Fixes(providings, callee), ArgumentFixes(providings, e, 0));
      case Subscript(base, _) =>
        ghost var before := diagnostics;
        Walk(base);
        VisitArguments(e, 0);
        Regroup(before, Fixes(providings, base), ArgumentFixes(providings, e, 0));
      case MacroUse(_, _) =>
        VisitArguments(e, 0);
      case Tuple(_) =>
      case StringLiteral(segments) =>
        WalkChildren(e, segments);
      case Interpolation(_) =>
        VisitArguments(e, 0);
      case Node(children) =>
        WalkChildren(e, children);
    }

    /** The segments of a string literal or the children of a node, left to right. */
    method WalkChildren(e: Expr, children: seq<Expr>)
      requires HasChildren(e) && children == Children(e)
      modifies this
      ensures diagnostics == old(diagnostics) + ChildFixes(providings, e, 0)
      decreases e, 1
    {
      var start := diagnostics;
      for i := 0 to |children|
        invariant diagnostics + ChildFixes(providings, e, i) == start + ChildFixes(providings, e, 0)
      {
        Walk(children[i]);
      }
      assert ChildFixes(providings, e, |children|) == [];
    }

    /** The labelled elements of anything but a tuple from the `i`-th on, left to right. */
    method VisitArguments(e: Expr, i: nat)
      requires HasElements(e) && !e.Tuple? && i <= |Elements(e)|
      modifies this
      ensures diagnostics == old(diagnostics) + ArgumentFixes(providings, e, i)
      decreases e, 1, |Elements(e)| - i
    {
      if i < |Elements(e)| {
        ghost var before := diagnostics;
        Visit(e, i);
        VisitArguments(e, i + 1);
        Regroup(before, ArgumentFix(providings, Elements(e)[i].value), ArgumentFixes(providings, e, i + 1));
      }
    }

    /** `visit(_: LabeledExprSyntax)`: report an argument that calls a provider and skip it, or else go inside. */
    method Visit(e: Expr, i: nat)
      requires HasElements(e) && i < |Elements(e)|
      modifies this
      ensures diagnostics == old(diagnostics) + ArgumentFix(providings, Elements(e)[i].value)
      decreases e, 0
    {
      var value := Elements(e)[i].value;
      var here := Check(providings, value);
      if here.Some? {
        diagnostics := diagnostics + [here.value];
      } else {
        Walk(value);
      }
    }

    method WalkAll(es: seq<Expr>)
      modifies this
      ensures diagnostics == old(diagnostics) + FixesAll(providings, es)
    {
      var start := diagnostics;
      for i := 0 to |es|
        invariant diagnostics + FixesAll(providings, es[i..]) == start + FixesAll(providings, es)
      {
        assert es[i..][1..] == es[i + 1..];
        Walk(es[i]);
      }
    }
  }

  // ---------------------------------------------------------------------------------------
  // Sorting the required keys

  predicate StrictlySorted(r: seq<ExtractedKey>) {
    forall i, j | 0 <= i < j < |r| :: KeyLess(r[i], r[j])
  }

  predicate IsLeast(m: ExtractedKey, s: set<ExtractedKey>) {
    m in s && forall x | x in s :: !KeyLess(x, m)
  }

  lemma {:induction false} LeastExists(s: set<ExtractedKey>)
    requires s != {}
    ensures exists m :: IsLeast(m, s)
    decreases s
  {
    var y :| y in s;
    if s == {y} {
      KeyLessIsStrictTotalOrder(y, y, y);
      assert IsLeast(y, s);
    } else {
      LeastExists(s - {y});
      var m :| IsLeast(m, s - {y});
      if KeyLess(y, m) {
        forall x | x in s
          ensures !KeyLess(x, y)
        {
          KeyLessIsStrictTotalOrder(x, y, m);
        }
        assert IsLeast(y, s);
      } else {
        assert IsLeast(m, s);
      }
    }
  }

  /** `sorted()` on a set of keys: each key once, in ascending order. */
  method Sort(s: set<ExtractedKey>) returns (r: seq<ExtractedKey>)
    ensures StrictlySorted(r)
    ensures forall k :: k in r <==> k in s
  {
    r := [];
    var remaining := s;
    while remaining != {}
      invariant remaining <= s
      invariant forall k :: k in s <==> k in r || k in remaining
      invariant StrictlySorted(r)
      invariant forall i, y | 0 <= i < |r| && y in remaining :: KeyLess(r[i], y)
      decreases remaining
    {
      LeastExists(remaining);
      var m :| IsLeast(m, remaining);
      forall y | y in remaining - {m}
        ensures KeyLess(m, y)
      {
        KeyLessIsStrictTotalOrder(m, y, y);
      }
      r := r + [m];
      remaining := remaining - {m};
    }
  }

  /** Sorting has one answer: two strictly sorted sequences with the same keys are equal. */
  lemma {:induction false} SortedIsUnique(a: seq<ExtractedKey>, b: seq<ExtractedKey>)
    requires StrictlySorted(a) && StrictlySorted(b)
    requires forall k :: k in a <==> k in b
    ensures a == b
  {
    assert a != [] ==> a[0] in b;
    assert b != [] ==> b[0] in a;
    if a != [] && b != [] {
      HeadsAgree(a, b);
      HeadsAgree(b, a);
      KeyLessIsStrictTotalOrder(a[0], b[0], a[0]);
      forall k
        ensures k in a[1..] <==> k in b[1..]
      {
        TailMember(a, b, k);
        TailMember(b, a, k);
      }
      SortedIsUnique(a[1..], b[1..]);
      assert a == [a[0]] + a[1..] && b == [b[0]] + b[1..];
    }
  }

  /** The head of a strictly sorted sequence is below every key of another one with the same keys, save itself. */
  lemma HeadsAgree(a: seq<ExtractedKey>, b: seq<ExtractedKey>)
    requires StrictlySorted(a) && StrictlySorted(b) && a != [] && b != []
    requires forall k :: k in a <==> k in b
    ensures !KeyLess(b[0], a[0])
  {
    assert b[0] in b;
    var i :| 0 <= i < |a| && a[i] == b[0];
    if i > 0 {
      KeyLessIsStrictTotalOrder(a[0], b[0], a[0]);
    } else {
      KeyLessIsStrictTotalOrder(a[0], a[0], a[0]);
    }
  }

  lemma TailMember(a: seq<ExtractedKey>, b: seq<ExtractedKey>, k: ExtractedKey)
    requires StrictlySorted(a) && StrictlySorted(b) && a != [] && b != [] && a[0] == b[0]
    requires forall k :: k in a <==> k in b
    ensures k in a[1..] ==> k in b[1..]
  {
    if k in a[1..] {
      var i :| 1 <= i < |a| && a[i] == k;
      assert k in b;
      var j :| 0 <= j < |b| && b[j] == k;
      KeyLessIsStrictTotalOrder(a[0], k, k);
      assert j != 0;
      assert b[1..][j - 1] == k;
    }
  }

  function Descriptions(keys: seq<ExtractedKey>): (r: seq<string>)
    ensures |r| == |keys| && forall i | 0 <= i < |keys| :: r[i] == keys[i].description
  {
    seq(|keys|, i requires 0 <= i < |keys| => keys[i].description)
  }

  // ---------------------------------------------------------------------------------------
  // expansion

  /** How each prefix summary grows by one member. */
  lemma PrefixStep(ms: seq<Member>, i: nat, isRoot: bool)
    requires i < |ms|
    ensures UsedKeys(ms[..i + 1]) == UsedKeys(ms[..i]) + KeysRead(ms[i])
    ensures Providings(ms[..i + 1])
            == Providings(ms[..i]) + (if ProvidingOf(ms[i]).Some? then [ProvidingOf(ms[i]).value] else [])
    ensures HasInitializer(ms[..i + 1]) == (HasInitializer(ms[..i]) || ms[i].InitializerDecl?)
    ensures InitDiagnostics(ms[..i + 1], isRoot) == InitDiagnostics(ms[..i], isRoot) + InitFix(ms[i], isRoot)
  {
    assert ms[..i + 1][..i] == ms[..i];
    if HasInitializer(ms[..i + 1]) && !ms[i].InitializerDecl? {
      var j :| 0 <= j < i + 1 && ms[..i + 1][j].InitializerDecl?;
      assert ms[..i][j].InitializerDecl?;
    }
    if HasInitializer(ms[..i]) {
      var j :| 0 <= j < i && ms[..i][j].InitializerDecl?;
      assert ms[..i + 1][j].InitializerDecl?;
    }
    if ms[i].InitializerDecl? {
      assert ms[..i + 1][i].InitializerDecl?;
    }
  }

  /** One pass of the member loop of `expansion`: what the member reads, provides and, as an initializer, lacks. */
  method ScanMember(m: Member, isRoot: bool) returns (keys: set<ExtractedKey>, providing: Option<FoundProvides>, fix: seq<Diagnostic>)
    ensures keys == KeysRead(m) && providing == ProvidingOf(m) && fix == InitFix(m, isRoot)
  {
    keys := {};
    providing := None;
    fix := [];
    match m
    case FunctionDecl(attributes, name, body) =>
      if body.Some? {
        keys := ExtractKeysUsedInGet(body.value);
      }
      var arguments := ExtractProvides(attributes);
      if arguments.Some? {
        providing := Some(FoundProvides(arguments.value, name + "()"));
      }
    case VariableDecl(attributes, pattern, _, accessor) =>
      if accessor.Some? {
        keys := ExtractKeysUsedInGet(accessor.value);
      }
      var arguments := ExtractProvides(attributes);
      if arguments.Some? {
        providing := Some(FoundProvides(arguments.value, pattern));
      }
    case InitializerDecl(parameters, statements) =>
      if statements.Some? && !AnyCallsInitContainer(parameters + statements.value) {
        fix := [InitContainerNotCalled(statements.value + [InitContainerCall(isRoot)])];
      }
    case OtherDecl(_) =>
  }

  /** The member loop of `expansion`: keys read, providings, whether an `init` exists, and the `initContainer` fix-its. */
  method ScanMembers(ms: seq<Member>, isRoot: bool)
    returns (usedKeys: set<ExtractedKey>, providings: seq<FoundProvides>, hasInitDecl: bool, diagnostics: seq<Diagnostic>)
    ensures usedKeys == UsedKeys(ms)
    ensures providings == Providings(ms)
    ensures hasInitDecl == HasInitializer(ms)
    ensures diagnostics == InitDiagnostics(ms, isRoot)
  {
    usedKeys, providings, hasInitDecl, diagnostics := {}, [], false, [];
    for i := 0 to |ms|
      invariant usedKeys == UsedKeys(ms[..i])
      invariant providings == Providings(ms[..i])
      invariant hasInitDecl == HasInitializer(ms[..i])
      invariant diagnostics == InitDiagnostics(ms[..i], isRoot)
    {
      PrefixStep(ms, i, isRoot);
      var keys, providing, fix := ScanMember(ms[i], isRoot);
      usedKeys := usedKeys + keys;
      if providing.Some? {
        providings := providings + [providing.value];
      }
      hasInitDecl := hasInitDecl || ms[i].InitializerDecl?;
      diagnostics := diagnostics + fix;
    }
    assert ms[..|ms|] == ms;
  }

  /**
    The `@Component` member expansion, as far as it decides anything: the struct check, the
    sorted requirements, the providings, whether an initializer must be synthesized, and
    the diagnostics in the order they are reported.
   */
  method Expand(root: Option<bool>, declaration: Declaration) returns (r: Result<Expansion, string>)
    ensures r.Err? <==> !declaration.StructDecl?
    ensures r.Err? ==> r.error == "Expected a struct declaration."
    ensures r.Ok? ==>
      var ms := declaration.members;
      var isRoot := root == Some(true);
      && r.value.providings == Providings(ms)
      && StrictlySorted(r.value.requirements)
      && (forall k :: k in r.value.requirements <==> k in RequiredKeys(ms))
      && r.value.synthesizesInit == !HasInitializer(ms)
      && r.value.diagnostics
         == InitDiagnostics(ms, isRoot)
            + FixesAll(Providings(ms), BlockSyntax(ms))
            + (if isRoot && RequiredKeys(ms) != {} then [MissingRequiredValues(Descriptions(r.value.requirements))] else [])
  {
    var isRoot := root == Some(true);
    if !declaration.StructDecl? {
      return Err("Expected a struct declaration.");
    }
    var ms := declaration.members;
    var usedKeys, providings, hasInitDecl, initFixes := ScanMembers(ms, isRoot);

    var visitor := new CallArgumentsVisitor(providings);
    visitor.WalkAll(BlockSyntax(ms));
    var argumentFixes := visitor.diagnostics;
    assert argumentFixes == FixesAll(Providings(ms), BlockSyntax(ms));

    var requiredKeys := usedKeys - ProvidedKeys(providings);
    assert requiredKeys == RequiredKeys(ms);
    var requiredKeysSorted := Sort(requiredKeys);
    var missing: seq<Diagnostic> := [];
    if isRoot && requiredKeys != {} {
      missing := [MissingRequiredValues(Descriptions(requiredKeysSorted))];
    }
    r := Ok(Expansion(requiredKeysSorted, providings, !hasInitDecl, initFixes + argumentFixes + missing));
  }
}
