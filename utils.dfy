/** `funcNameSafe`: turns a key's text into a fragment usable inside a Swift identifier. */
module Utils {
  /** The single-character rewrite: `.` and `\` become `_`, anything else stays. */
  function SafeChar(c: char): char {
    if c == '.' || c == '\\' then '_' else c
  }

  /** Every match of the pattern `[\\\.]` replaced by `_`. */
  function FuncNameSafe(s: string): (r: string)
    ensures |r| == |s|
    ensures forall i | 0 <= i < |s| :: r[i] == SafeChar(s[i])
  {
    if s == [] then [] else [SafeChar(s[0])] + FuncNameSafe(s[1..])
  }

  /** The result holds neither `.` nor `\`, and every other character is where it was. */
  lemma NoSeparatorsLeft(s: string)
    ensures forall i | 0 <= i < |s| :: FuncNameSafe(s)[i] != '.' && FuncNameSafe(s)[i] != '\\'
    ensures forall i | 0 <= i < |s| && s[i] != '.' && s[i] != '\\' :: FuncNameSafe(s)[i] == s[i]
  {
  }

  /** Text without `.` or `\` is already safe. */
  lemma SafeTextUnchanged(s: string)
    requires forall i | 0 <= i < |s| :: s[i] != '.' && s[i] != '\\'
    ensures FuncNameSafe(s) == s
  {
  }

  /** Applying the rewrite twice is the same as applying it once. */
  lemma Idempotent(s: string)
    ensures FuncNameSafe(FuncNameSafe(s)) == FuncNameSafe(s)
  {
    SafeTextUnchanged(FuncNameSafe(s));
  }

  /**
    The rewrite is not injective: the keys `.foo` and `_foo` give the same fragment, so
    their generated `__provide_` helpers would share a name.
   */
  lemma DistinctKeysCanCollide()
    ensures ".foo" != "_foo" && FuncNameSafe(".foo") == FuncNameSafe("_foo") == "_foo"
  {
    assert FuncNameSafe(".foo")[0] == '_';
  }
}
