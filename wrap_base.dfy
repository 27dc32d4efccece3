/**
 * Shared vocabulary of the wrap grooming pass: errors, the placeholder CEL
 * check, alignments, menu modes and the join of value paths.
 */
module WrapBase {

  datatype Option<T> = None | Some(value: T)

  /** Every error the grooming pass can report. `NilDereference` stands for
      the run-time panic of calling a method on a nil `*Validation`;
      `InvalidValidation`, `InvalidCondition`, `InvalidReadOnly` and
      `InvalidGlobalValidation` wrap CEL errors, which the placeholder check
      never produces. */
  datatype Error =
    | InvalidApiVersion(apiVersion: string)
    | InvalidKind(kind: string)
    | NameRequired
    | VersionRequired
    | MenuModeRequired
    | InvalidMenuMode(menuMode: string)
    | NoSourceApiVersion
    | NoSourceKind
    | InvalidGlobalValidation(cause: Error)
    | FieldNameRequired
    | InvalidValidation(cause: Error)
    | InvalidCondition(cause: Error)
    | InvalidReadOnly(cause: Error)
    | Conflict(first: string, second: string)
    | InvalidUiComponent(uiComponent: string)
    | InvalidAlignment(alignment: string)
    | InField(field: string, cause: Error)
    | NilDereference

  /** The text of an error as the source formats it. */
  function Message(e: Error): string
  {
    match e
    case InvalidApiVersion(v) => "invalid api version: " + v
    case InvalidKind(k) => "invalid Wrap type: " + k
    case NameRequired => "name is required"
    case VersionRequired => "version is required"
    case MenuModeRequired => "menuMode is required"
    case InvalidMenuMode(m) => "invalid menuMode: " + m
    case NoSourceApiVersion => "no apiVersion defined for source"
    case NoSourceKind => "no kind defined for source"
    case InvalidGlobalValidation(c) => "invalid global schema validation: " + Message(c)
    case FieldNameRequired => "field name is required"
    case InvalidValidation(c) => "invalid validation: " + Message(c)
    case InvalidCondition(c) => "invalid condition: " + Message(c)
    case InvalidReadOnly(c) => "invalid readOnly expression: " + Message(c)
    case Conflict(a, b) => "can't be '" + a + "' and '" + b + "'"
    case InvalidUiComponent(u) => "invalid UiComponent: " + u
    case InvalidAlignment(a) => "invalid alignment: " + a + ". Must be one of 'left', 'center' or 'right'"
    case InField(f, c) => "field '" + f + "': " + Message(c)
    case NilDereference => "runtime error: invalid memory address or nil pointer dereference"
  }

  /** Wraps an error with a prefix naming a field. A panic is not an error
      value and unwinds past the prefixing code unchanged. */
  function Qualify(name: string, e: Error): (r: Error)
    ensures e.NilDereference? ==> r == e
    ensures !e.NilDereference? ==> r == InField(name, e)
  {
    if e.NilDereference? then e else InField(name, e)
  }

  /** Wraps a validation error; a panic passes through. */
  function AsInvalidValidation(e: Error): (r: Error)
    ensures e.NilDereference? ==> r == e
    ensures !e.NilDereference? ==> r == InvalidValidation(e)
  {
    if e.NilDereference? then e else InvalidValidation(e)
  }

  /** `s` unless it is empty, when `d`. */
  function OrDefault(s: string, d: string): (r: string)
    ensures s != "" ==> r == s
    ensures s == "" ==> r == d
  {
    if s == "" then d else s
  }

  /** `n` unless it is zero, when `d`. */
  function OrDefaultInt(n: int, d: int): (r: int)
    ensures n != 0 ==> r == n
    ensures n == 0 ==> r == d
  {
    if n == 0 then d else n
  }

  /** The text of a field-qualified error: the field's name in front of the
      cause's text, except for a panic, which keeps its own text. A panic is
      never found inside a qualified error. */
  lemma {:induction false} QualifyMessage(name: string, e: Error)
    ensures Qualify(name, e).NilDereference? <==> e.NilDereference?
    ensures Qualify(name, e).InField? ==> !Qualify(name, e).cause.NilDereference?
    ensures !e.NilDereference? ==> Message(Qualify(name, e)) == "field '" + name + "': " + Message(e)
    ensures e.NilDereference? ==> Message(Qualify(name, e)) == Message(e)
  {
  }

  /** A field nested in an object field is reported with both names, the
      outer one first, in front of the cause's text. */
  lemma {:induction false} NestedFieldMessage(outer: string, inner: string, e: Error)
    requires !e.NilDereference?
    ensures Message(Qualify(outer, Qualify(inner, e)))
      == "field '" + outer + "': " + "field '" + inner + "': " + Message(e)
  {
    QualifyMessage(inner, e);
    QualifyMessage(outer, Qualify(inner, e));
  }

  /** The text of a wrapped validation error: "invalid validation: " in front
      of the cause's text, except for a panic. */
  lemma {:induction false} AsInvalidValidationMessage(e: Error)
    ensures AsInvalidValidation(e).NilDereference? <==> e.NilDereference?
    ensures !e.NilDereference? ==> Message(AsInvalidValidation(e)) == "invalid validation: " + Message(e)
    ensures e.NilDereference? ==> Message(AsInvalidValidation(e)) == Message(e)
  {
  }

  /** Defaulting twice is defaulting once; a non-empty default leaves no empty
      value; the value survives exactly when it is set or nothing replaces it. */
  lemma {:induction false} OrDefaultIdempotent(s: string, d: string)
    ensures OrDefault(OrDefault(s, d), d) == OrDefault(s, d)
    ensures d != "" ==> OrDefault(s, d) != ""
    ensures OrDefault(s, d) == s <==> s != "" || d == ""
  {
  }

  /** The same three facts for numbers, where zero means unset. */
  lemma {:induction false} OrDefaultIntIdempotent(n: int, d: int)
    ensures OrDefaultInt(OrDefaultInt(n, d), d) == OrDefaultInt(n, d)
    ensures d != 0 ==> OrDefaultInt(n, d) != 0
    ensures OrDefaultInt(n, d) == n <==> n != 0 || d == 0
  {
  }

  // ---------------------------------------------------------------------
  // CEL and validations
  // ---------------------------------------------------------------------

  /** `validCel`: the check is a placeholder that accepts every expression. */
  function ValidCel(exp: string): (r: Option<Error>)
    ensures r == None
  {
    None
  }

  datatype Validation = Validation(test: string, message: string)

  /** `(*Validation).groom`: checks the test expression. Called on a nil
      pointer it dereferences nil. */
  function GroomValidation(v: Option<Validation>): (r: Option<Error>)
    ensures v.None? <==> r == Some(NilDereference)
    ensures v.Some? ==> r == ValidCel(v.value.test)
  {
    match v
    case None => Some(NilDereference)
    case Some(val) => ValidCel(val.test)
  }

  // ---------------------------------------------------------------------
  // Alignments and menu modes
  // ---------------------------------------------------------------------

  predicate IsAlignment(a: string)
  {
    a == "left" || a == "center" || a == "right"
  }

  /** `validAlignment`: exactly "left", "center" and "right" are accepted. */
  function ValidAlignment(a: string): (r: Option<Error>)
    ensures r.None? <==> IsAlignment(a)
    ensures r.Some? ==> r.value == InvalidAlignment(a)
  {
    if a in {"left", "center", "right"} then None else Some(InvalidAlignment(a))
  }

  /** `validMenuModes`. */
  predicate ValidMenuMode(m: string)
  {
    m == "grid" || m == "subMenu"
  }

  // ---------------------------------------------------------------------
  // joinPath
  // ---------------------------------------------------------------------

  /** a without one trailing dot. */
  function Stem(a: string): string
  {
    if |a| > 0 && a[|a| - 1] == '.' then a[..|a| - 1] else a
  }

  /** b without one leading dot. */
  function Tail(b: string): string
  {
    if |b| > 0 && b[0] == '.' then b[1..] else b
  }

  /** `joinPath`: one trailing dot of the first path and one leading dot of
      the second merge into a single dot; if neither has one, a dot is
      inserted. Further dots are kept. */
  function JoinPath(a: string, b: string): (r: string)
    ensures r == Stem(a) + "." + Tail(b)
    ensures r != ""
  {
    var s := |a| > 0 && a[|a| - 1] == '.';
    var p := |b| > 0 && b[0] == '.';
    if s && p then a + b[1..]
    else if !s && !p then a + "." + b
    else a + b
  }

  lemma {:induction false} JoinPathExamples()
    ensures JoinPath("a.", ".b") == "a.b"
    ensures JoinPath("a", "b") == "a.b"
    ensures JoinPath("a.", "b") == "a.b"
    ensures JoinPath("a", ".b") == "a.b"
    ensures JoinPath("", "x") == ".x"
    ensures JoinPath("a..", "b") == "a..b"
    ensures JoinPath("a..", "..b") == "a...b"
  {
    assert Stem("a.") == "a";
    assert Tail(".b") == "b";
    assert Stem("a..") == "a.";
    assert Tail("..b") == ".b";
  }
}
