/**
 * The recursive grooming pass over a decoded Wrap document: the document
 * itself, its fields, the variant record of each field, and the two
 * composite variants (arrays and objects). Grooming fills empty properties
 * and stops at the first check that fails.
 *
 * The document is an object groomed in place. Below it the tree is a value:
 * fields, variant records and variants are never shared, so grooming a node
 * returns its groomed value, which the caller stores back where the node
 * was. For every kind of node three reference definitions stand beside the
 * groom method: `...Problem` names the first failure grooming reports,
 * `...Fixed` says that a node is already in groomed form, and `Groomed...`
 * is the value grooming makes of it.
 */
module WrapTree {
  import opened WrapBase
  import Labelize
  import StringField
  import BooleanField
  import IntegerField
  import NumberField
  import DurationField

  /** The `valuePathProvider` a field remembers, by the value path it
      provides: the document for top-level fields, the enclosing object for
      nested ones, nothing before grooming. */
  datatype PathProvider = NoProvider | Provider(valuePath: string)

  /** The variant record of a field: any subset of the seven variants may be
      present in the document; grooming accepts at most one besides string. */
  datatype Type = Type(arr: Option<FieldArray>, boolean: Option<BooleanField.FieldBoolean>,
                       duration: Option<DurationField.FieldDuration>, integer: Option<IntegerField.FieldInteger>,
                       number: Option<NumberField.FieldNumber>, obj: Option<FieldObject>,
                       str: Option<StringField.FieldString>)

  /** The list-view block of an array field. */
  datatype ArrayInList = ArrayInList(hidden: bool, header: string, display: string, width: int, height: int,
                                     value: string, alignment: string)

  /** An array field: the validation and variant record of its items. */
  datatype FieldArray = FieldArray(itemValidation: Option<Validation>, itemType: Type, inList: Option<ArrayInList>)

  /** The list-view block of an object field. */
  datatype ObjectInList = ObjectInList(hidden: bool, header: string, uiComponent: string, alignment: string,
                                       width: int, height: int, value: string)

  /** An object field: its children and the path their values live under. */
  datatype FieldObject = FieldObject(basePath: string, fields: seq<Field>, uiComponent: string,
                                     inList: Option<ObjectInList>)

  datatype Field = Field(name: string, labelText: string, tooltip: string, validation: Option<Validation>,
                         required: bool, condition: string, readOnly: string, typ: Type,
                         pathProvider: PathProvider)

  /** `(*FieldObject).GetValuePath`: the children's values live under the
      base path. */
  function ObjectValuePath(o: FieldObject): string
  {
    o.basePath
  }

  /** `(*Field).GetValuePath`: the path of the node that groomed the field;
      on a field never groomed the source calls a nil interface. */
  function FieldValuePath(f: Field): string
    requires f.pathProvider.Provider?
  {
    f.pathProvider.valuePath
  }

  // ---------------------------------------------------------------------
  // First failures
  // ---------------------------------------------------------------------

  /** How many of the non-string variants are present. */
  function KindCount(t: Type): (n: nat)
    ensures n == 0 <==>
      t.arr.None? && t.boolean.None? && t.duration.None? && t.integer.None? && t.number.None? && t.obj.None?
  {
    (if t.arr.Some? then 1 else 0) + (if t.boolean.Some? then 1 else 0) + (if t.duration.Some? then 1 else 0) +
    (if t.integer.Some? then 1 else 0) + (if t.number.Some? then 1 else 0) + (if t.obj.Some? then 1 else 0)
  }

  /** The name of the first non-string variant present, in grooming order. */
  function FirstKind(t: Type): (k: string)
    ensures k == "" <==> KindCount(t) == 0
  {
    if t.arr.Some? then "array"
    else if t.boolean.Some? then "boolean"
    else if t.duration.Some? then "duration"
    else if t.integer.Some? then "integer"
    else if t.number.Some? then "number"
    else if t.obj.Some? then "object"
    else ""
  }

  /** The name of the second non-string variant present: the first one once
      the first is taken away. */
  function SecondKind(t: Type): string
  {
    if t.arr.Some? then FirstKind(t.(arr := None))
    else if t.boolean.Some? then FirstKind(t.(boolean := None))
    else if t.duration.Some? then FirstKind(t.(duration := None))
    else if t.integer.Some? then FirstKind(t.(integer := None))
    else if t.number.Some? then FirstKind(t.(number := None))
    else ""
  }

  /** The failure of the first non-string variant present, if any. */
  function TypeFirstProblem(t: Type): Option<Error>
    decreases t, 0
  {
    if t.arr.Some? then ArrayProblem(t.arr.value)
    else if t.boolean.Some? then BooleanField.Problem(t.boolean.value)
    else if t.duration.Some? then DurationField.Problem(t.duration.value)
    else if t.integer.Some? then IntegerField.Problem(t.integer.value)
    else if t.number.Some? then NumberField.Problem(t.number.value)
    else if t.obj.Some? then ObjectProblem(t.obj.value)
    else None
  }

  /** The first error of `(*Type).groom`: the first non-string variant
      present is groomed before a second one is noticed, which is a
      conflict; the string variant comes last (an empty one, which has no
      problem, when there was no variant at all). */
  function TypeProblem(t: Type): Option<Error>
    decreases t, 1
  {
    if TypeFirstProblem(t).Some? then TypeFirstProblem(t)
    else if KindCount(t) >= 2 then Some(Conflict(FirstKind(t), SecondKind(t)))
    else if t.str.Some? then StringField.Problem(t.str.value)
    else None
  }

  /** The first error of `(*FieldArray).groom`. The nil test on the item
      validation is inverted: an absent validation is dereferenced, a
      present one is never checked. */
  function ArrayProblem(a: FieldArray): Option<Error>
    decreases a, 0
  {
    if a.itemValidation.None? then Some(NilDereference)
    else if TypeProblem(a.itemType).Some? then TypeProblem(a.itemType)
    else if a.inList.None? then None
    else ValidAlignment(OrDefault(a.inList.value.alignment, "left"))
  }

  /** The first failure among the fields from index k on, prefixed with the
      name of its field. */
  function FieldsProblem(fs: seq<Field>, k: nat): (r: Option<Error>)
    requires k <= |fs|
    decreases fs, |fs| - k
  {
    if k == |fs| then None
    else if FieldProblem(fs[k]).Some? then Some(Qualify(fs[k].name, FieldProblem(fs[k]).value))
    else FieldsProblem(fs, k + 1)
  }

  /** The first error of `(*FieldObject).groom`: the children first, then the
      card and list-view components and the alignment. */
  function ObjectProblem(o: FieldObject): Option<Error>
    decreases o, 0
  {
    if FieldsProblem(o.fields, 0).Some? then FieldsProblem(o.fields, 0)
    else if OrDefault(o.uiComponent, "fieldSet") != "fieldSet" then Some(InvalidUiComponent(o.uiComponent))
    else if o.inList.None? then None
    else if OrDefault(o.inList.value.uiComponent, "raw") != "raw" then
      Some(InvalidUiComponent(o.inList.value.uiComponent))
    else ValidAlignment(OrDefault(o.inList.value.alignment, "left"))
  }

  /** The first error of `(*Field).groom`; it does not depend on the path
      provider. */
  function FieldProblem(f: Field): Option<Error>
    decreases f, 0
  {
    if f.name == "" then Some(FieldNameRequired)
    else if f.validation.Some? && GroomValidation(f.validation).Some? then
      Some(AsInvalidValidation(GroomValidation(f.validation).value))
    else if ValidCel(f.condition).Some? then Some(InvalidCondition(ValidCel(f.condition).value))
    else if ValidCel(f.readOnly).Some? then Some(InvalidReadOnly(ValidCel(f.readOnly).value))
    else TypeProblem(f.typ)
  }

  // ---------------------------------------------------------------------
  // Groomed form
  // ---------------------------------------------------------------------

  /** Groomed for this default and label: one variant at most besides string,
      a string variant when there is no other, every variant groomed. */
  predicate TypeFixed(t: Type, dflt: string, fieldLabel: string)
    decreases t, 0
  {
    KindCount(t) <= 1 && (KindCount(t) == 0 ==> t.str.Some?) &&
    (t.arr.Some? ==> ArrayFixed(t.arr.value, dflt, fieldLabel)) &&
    (t.boolean.Some? ==> BooleanField.Fixed(t.boolean.value, dflt, fieldLabel)) &&
    (t.duration.Some? ==> DurationField.Fixed(t.duration.value, dflt, fieldLabel)) &&
    (t.integer.Some? ==> IntegerField.Fixed(t.integer.value, dflt, fieldLabel)) &&
    (t.number.Some? ==> NumberField.Fixed(t.number.value, dflt, fieldLabel)) &&
    (t.obj.Some? ==> ObjectFixed(t.obj.value, dflt, fieldLabel)) &&
    (t.str.Some? ==> StringField.Fixed(t.str.value, dflt, fieldLabel))
  }

  predicate ArrayFixed(a: FieldArray, dflt: string, fieldLabel: string)
    decreases a, 0
  {
    a.itemValidation.Some? && TypeFixed(a.itemType, dflt, fieldLabel) &&
    (a.inList.Some? ==>
      var l := a.inList.value;
      (l.header != "" || fieldLabel == "") && l.display != "" && l.height != 0 && l.value != "" &&
      IsAlignment(l.alignment))
  }

  predicate ObjectFixed(o: FieldObject, dflt: string, fieldLabel: string)
    decreases o, 0
  {
    (o.basePath != "" || dflt == "") && FieldsFixed(o.fields, o.basePath) && o.uiComponent == "fieldSet" &&
    (o.inList.Some? ==>
      var l := o.inList.value;
      (l.header != "" || fieldLabel == "") && l.uiComponent == "raw" && IsAlignment(l.alignment) && l.value != "")
  }

  /** Every field groomed under a parent whose value path is `parentPath`. */
  predicate FieldsFixed(fs: seq<Field>, parentPath: string)
    decreases fs, 0
  {
    forall i :: 0 <= i < |fs| ==> FieldFixed(fs[i], parentPath)
  }

  /** Groomed under a parent whose value path is `parentPath`. */
  predicate FieldFixed(f: Field, parentPath: string)
    decreases f, 0
  {
    f.pathProvider == Provider(parentPath) && f.name != "" &&
    (f.labelText != "" || Labelize.LabelOf(f.name) == "") &&
    TypeFixed(f.typ, JoinPath(parentPath, f.name), f.labelText)
  }

  // ---------------------------------------------------------------------
  // What grooming makes of a node
  // ---------------------------------------------------------------------

  /** t groomed: every variant present is groomed with the same default and
      label, and an empty string variant is added when there is no variant
      at all. */
  function GroomedType(t: Type, dflt: string, fieldLabel: string): (u: Type)
    decreases t, 2
  {
    Type(if t.arr.Some? then Some(GroomedArray(t.arr.value, dflt, fieldLabel)) else None,
         if t.boolean.Some? then Some(BooleanField.Defaulted(t.boolean.value, dflt, fieldLabel)) else None,
         if t.duration.Some? then Some(DurationField.Defaulted(t.duration.value, dflt, fieldLabel)) else None,
         if t.integer.Some? then Some(IntegerField.Defaulted(t.integer.value, dflt, fieldLabel)) else None,
         if t.number.Some? then Some(NumberField.Defaulted(t.number.value, dflt, fieldLabel)) else None,
         if t.obj.Some? then Some(GroomedObject(t.obj.value, dflt, fieldLabel)) else None,
         if t.str.Some? then Some(StringField.Defaulted(t.str.value, dflt, fieldLabel))
         else if KindCount(t) == 0 then Some(StringField.Defaulted(StringField.Zero, dflt, fieldLabel))
         else None)
  }

  /** a groomed: the item type is groomed with the array's own default and
      label, the list-view block is filled (its width is left alone). */
  function GroomedArray(a: FieldArray, dflt: string, fieldLabel: string): (b: FieldArray)
    decreases a, 2
  {
    a.(itemType := GroomedType(a.itemType, dflt, fieldLabel),
       inList := if a.inList.None? then None
                 else var l := a.inList.value;
                      Some(ArrayInList(l.hidden, OrDefault(l.header, fieldLabel), OrDefault(l.display, "raw"),
                                       l.width, OrDefaultInt(l.height, 1), OrDefault(l.value, "'[...]'"),
                                       OrDefault(l.alignment, "left"))))
  }

  /** o groomed: the base path defaults to the object's own default, every
      child is groomed under it, the components and the list-view block are
      filled (its width and height are left alone). */
  function GroomedObject(o: FieldObject, dflt: string, fieldLabel: string): (p: FieldObject)
    decreases o, 2
  {
    var base := OrDefault(o.basePath, dflt);
    o.(basePath := base, fields := GroomedFields(o.fields, base),
       uiComponent := OrDefault(o.uiComponent, "fieldSet"),
       inList := if o.inList.None? then None
                 else var l := o.inList.value;
                      Some(ObjectInList(l.hidden, OrDefault(l.header, fieldLabel), OrDefault(l.uiComponent, "raw"),
                                        OrDefault(l.alignment, "left"), l.width, l.height,
                                        OrDefault(l.value, "'{...}'"))))
  }

  /** Every field groomed, in order, under the same parent. The pointwise
      ensures is there for the verifier; `GroomedFieldsShape` states what
      grooming keeps and sets. */
  function GroomedFields(fs: seq<Field>, parentPath: string): (gs: seq<Field>)
    decreases fs, 2
    ensures |gs| == |fs| && forall i :: 0 <= i < |fs| ==> gs[i] == GroomedField(fs[i], parentPath)
  {
    seq(|fs|, i requires 0 <= i < |fs| => GroomedField(fs[i], parentPath))
  }

  /** Grooming a list of fields keeps each field's name and its other
      properties, records the parent as its path provider, and leaves a field
      without a label only when its name gives none. */
  lemma {:induction false} GroomedFieldsShape(fs: seq<Field>, parentPath: string)
    ensures |GroomedFields(fs, parentPath)| == |fs|
    ensures forall i :: 0 <= i < |fs| ==>
      GroomedFields(fs, parentPath)[i].name == fs[i].name &&
      GroomedFields(fs, parentPath)[i].pathProvider == Provider(parentPath) &&
      GroomedFields(fs, parentPath)[i].tooltip == fs[i].tooltip &&
      GroomedFields(fs, parentPath)[i].validation == fs[i].validation &&
      GroomedFields(fs, parentPath)[i].required == fs[i].required &&
      GroomedFields(fs, parentPath)[i].condition == fs[i].condition &&
      GroomedFields(fs, parentPath)[i].readOnly == fs[i].readOnly &&
      (fs[i].labelText != "" ==> GroomedFields(fs, parentPath)[i].labelText == fs[i].labelText) &&
      (GroomedFields(fs, parentPath)[i].labelText == "" ==> Labelize.LabelOf(fs[i].name) == "")
  {
  }

  /** f groomed under a parent with value path `parentPath`: the parent is
      remembered, an empty label is derived from the name, and the variants
      are groomed with the default value path `joinPath(parentPath, name)`
      and the label. */
  function GroomedField(f: Field, parentPath: string): (g: Field)
    decreases f, 2
  {
    var text := OrDefault(f.labelText, Labelize.LabelOf(f.name));
    f.(labelText := text, pathProvider := Provider(parentPath),
       typ := GroomedType(f.typ, JoinPath(parentPath, f.name), text))
  }

  // ---------------------------------------------------------------------
  // Grooming fails exactly when its result is not in groomed form, and it
  // leaves a groomed node as it is
  // ---------------------------------------------------------------------

  lemma {:induction false} TypeGroomedIsFixed(t: Type, dflt: string, fieldLabel: string)
    ensures TypeProblem(t) == None <==> TypeFixed(GroomedType(t, dflt, fieldLabel), dflt, fieldLabel)
    decreases t, 0
  {
    if t.arr.Some? {
      ArrayGroomedIsFixed(t.arr.value, dflt, fieldLabel);
    }
    if t.obj.Some? {
      ObjectGroomedIsFixed(t.obj.value, dflt, fieldLabel);
    }
  }

  lemma {:induction false} ArrayGroomedIsFixed(a: FieldArray, dflt: string, fieldLabel: string)
    ensures ArrayProblem(a) == None <==> ArrayFixed(GroomedArray(a, dflt, fieldLabel), dflt, fieldLabel)
    decreases a, 0
  {
    TypeGroomedIsFixed(a.itemType, dflt, fieldLabel);
  }

  lemma {:induction false} ObjectGroomedIsFixed(o: FieldObject, dflt: string, fieldLabel: string)
    ensures ObjectProblem(o) == None <==> ObjectFixed(GroomedObject(o, dflt, fieldLabel), dflt, fieldLabel)
    decreases o, 0
  {
    FieldsGroomedIsFixed(o.fields, OrDefault(o.basePath, dflt));
  }

  /** The fields from k on have no problem exactly when none of them has one. */
  lemma {:induction false} FieldsProblemNone(fs: seq<Field>, k: nat)
    requires k <= |fs|
    ensures FieldsProblem(fs, k).None? <==> forall i :: k <= i < |fs| ==> FieldProblem(fs[i]).None?
    decreases |fs| - k
  {
    if k < |fs| {
      FieldsProblemNone(fs, k + 1);
    }
  }

  lemma {:induction false} FieldsGroomedIsFixed(fs: seq<Field>, parentPath: string)
    ensures FieldsProblem(fs, 0) == None <==> FieldsFixed(GroomedFields(fs, parentPath), parentPath)
    decreases fs, 0
  {
    FieldsProblemNone(fs, 0);
    forall i | 0 <= i < |fs|
      ensures FieldProblem(fs[i]) == None <==> FieldFixed(GroomedField(fs[i], parentPath), parentPath)
    {
      FieldGroomedIsFixed(fs[i], parentPath);
    }
  }

  lemma {:induction false} FieldGroomedIsFixed(f: Field, parentPath: string)
    ensures FieldProblem(f) == None <==> FieldFixed(GroomedField(f, parentPath), parentPath)
    decreases f, 0
  {
    TypeGroomedIsFixed(f.typ, JoinPath(parentPath, f.name), OrDefault(f.labelText, Labelize.LabelOf(f.name)));
  }

  lemma {:induction false} TypeFixedIsGroomed(t: Type, dflt: string, fieldLabel: string)
    requires TypeFixed(t, dflt, fieldLabel)
    ensures GroomedType(t, dflt, fieldLabel) == t
    decreases t, 0
  {
    if t.arr.Some? {
      ArrayFixedIsGroomed(t.arr.value, dflt, fieldLabel);
    }
    if t.obj.Some? {
      ObjectFixedIsGroomed(t.obj.value, dflt, fieldLabel);
    }
  }

  lemma {:induction false} ArrayFixedIsGroomed(a: FieldArray, dflt: string, fieldLabel: string)
    requires ArrayFixed(a, dflt, fieldLabel)
    ensures GroomedArray(a, dflt, fieldLabel) == a
    decreases a, 0
  {
    TypeFixedIsGroomed(a.itemType, dflt, fieldLabel);
  }

  lemma {:induction false} ObjectFixedIsGroomed(o: FieldObject, dflt: string, fieldLabel: string)
    requires ObjectFixed(o, dflt, fieldLabel)
    ensures GroomedObject(o, dflt, fieldLabel) == o
    decreases o, 0
  {
    FieldsFixedIsGroomed(o.fields, o.basePath);
  }

  lemma {:induction false} FieldsFixedIsGroomed(fs: seq<Field>, parentPath: string)
    requires FieldsFixed(fs, parentPath)
    ensures GroomedFields(fs, parentPath) == fs
    decreases fs, 0
  {
    forall i | 0 <= i < |fs|
      ensures GroomedField(fs[i], parentPath) == fs[i]
    {
      FieldFixedIsGroomed(fs[i], parentPath);
    }
  }

  lemma {:induction false} FieldFixedIsGroomed(f: Field, parentPath: string)
    requires FieldFixed(f, parentPath)
    ensures GroomedField(f, parentPath) == f
    decreases f, 0
  {
    TypeFixedIsGroomed(f.typ, JoinPath(parentPath, f.name), f.labelText);
  }

  /** Grooming a sequence of fields: no problem gives groomed fields, and
      groomed fields have no problem and are left as they are. */
  lemma {:induction false} FieldsGroomOutcome(fs: seq<Field>, parentPath: string)
    ensures FieldsProblem(fs, 0) == None ==> FieldsFixed(GroomedFields(fs, parentPath), parentPath)
    ensures FieldsFixed(fs, parentPath) ==> FieldsProblem(fs, 0) == None && GroomedFields(fs, parentPath) == fs
  {
    FieldsGroomedIsFixed(fs, parentPath);
    if FieldsFixed(fs, parentPath) {
      FieldsFixedIsGroomed(fs, parentPath);
    }
  }

  /** A node in groomed form has no problem. */
  lemma {:induction false} TypeFixedHasNoProblem(t: Type, dflt: string, fieldLabel: string)
    requires TypeFixed(t, dflt, fieldLabel)
    ensures TypeProblem(t) == None
  {
    TypeFixedIsGroomed(t, dflt, fieldLabel);
    TypeGroomedIsFixed(t, dflt, fieldLabel);
  }

  lemma {:induction false} FieldsFixedHaveNoProblem(fs: seq<Field>, parentPath: string)
    requires FieldsFixed(fs, parentPath)
    ensures FieldsProblem(fs, 0) == None
  {
    FieldsFixedIsGroomed(fs, parentPath);
    FieldsGroomedIsFixed(fs, parentPath);
  }

  // ---------------------------------------------------------------------
  // Grooming
  // ---------------------------------------------------------------------

  /** `(*Type).groom`: grooms the variants present in a fixed order,
      rejecting a second non-string one; with no variant at all, an empty
      string variant is created and groomed. */
  method GroomType(t: Type, dflt: string, fieldLabel: string) returns (u: Type, err: Option<Error>)
    decreases t, 1
    ensures err == TypeProblem(t)
    ensures err.None? ==> u == GroomedType(t, dflt, fieldLabel)
  {
    var myType;
    u, myType, err := GroomVariants(t, dflt, fieldLabel);
    if err.Some? {
      return;
    }
    if myType == "" && u.str.None? {
      u := u.(str := Some(StringField.Zero));
    }
    if u.str.Some? {
      var s;
      s, err := StringField.Groom(u.str.value, dflt, fieldLabel);
      u := u.(str := Some(s));
    }
  }

  /** The non-string part of `(*Type).groom`: the six variants in order,
      with the name of the first one present kept in `myType`. */
  method GroomVariants(t: Type, dflt: string, fieldLabel: string) returns (u: Type, myType: string, err: Option<Error>)
    decreases t, 0
    ensures err.Some? ==> err == TypeProblem(t)
    ensures err.None? <==> TypeFirstProblem(t).None? && KindCount(t) <= 1
    ensures err.None? ==> u == GroomedType(t, dflt, fieldLabel).(str := t.str) && myType == FirstKind(t)
  {
    u, myType := t, "";
    if t.arr.Some? {
      myType := "array";
      var a;
      a, err := GroomArray(t.arr.value, dflt, fieldLabel);
      u := u.(arr := Some(a));
      if err.Some? {
        return;
      }
    }
    if t.boolean.Some? {
      if myType != "" {
        return u, myType, Some(Conflict(myType, "boolean"));
      }
      myType := "boolean";
      var b;
      b, err := BooleanField.Groom(t.boolean.value, dflt, fieldLabel);
      u := u.(boolean := Some(b));
      if err.Some? {
        return;
      }
    }
    if t.duration.Some? {
      if myType != "" {
        return u, myType, Some(Conflict(myType, "duration"));
      }
      myType := "duration";
      var d;
      d, err := DurationField.Groom(t.duration.value, dflt, fieldLabel);
      u := u.(duration := Some(d));
      if err.Some? {
        return;
      }
    }
    if t.integer.Some? {
      if myType != "" {
        return u, myType, Some(Conflict(myType, "integer"));
      }
      myType := "integer";
      var n;
      n, err := IntegerField.Groom(t.integer.value, dflt, fieldLabel);
      u := u.(integer := Some(n));
      if err.Some? {
        return;
      }
    }
    if t.number.Some? {
      if myType != "" {
        return u, myType, Some(Conflict(myType, "number"));
      }
      myType := "number";
      var x;
      x, err := NumberField.Groom(t.number.value, dflt, fieldLabel);
      u := u.(number := Some(x));
      if err.Some? {
        return;
      }
    }
    if t.obj.Some? {
      if myType != "" {
        return u, myType, Some(Conflict(myType, "object"));
      }
      myType := "object";
      var o;
      o, err := GroomObject(t.obj.value, dflt, fieldLabel);
      u := u.(obj := Some(o));
      if err.Some? {
        return;
      }
    }
    return u, myType, None;
  }

  /** `(*FieldArray).groom`: grooms the item type with the array's own
      default and label, then fills and checks the list-view block. */
  method GroomArray(a: FieldArray, dflt: string, fieldLabel: string) returns (b: FieldArray, err: Option<Error>)
    decreases a
    ensures err == ArrayProblem(a)
    ensures err.None? ==> b == GroomedArray(a, dflt, fieldLabel)
  {
    b := a;
    if a.itemValidation.None? {
      // the nil validation is groomed, which dereferences it
      match GroomValidation(a.itemValidation) {
        case Some(e) => return b, Some(AsInvalidValidation(e));
        case None =>
      }
    }
    var it;
    it, err := GroomType(a.itemType, dflt, fieldLabel);
    b := b.(itemType := it);
    if err.Some? {
      return;
    }
    if b.inList.Some? {
      var l := b.inList.value.(header := OrDefault(b.inList.value.header, fieldLabel));
      l := l.(display := OrDefault(l.display, "raw"), height := OrDefaultInt(l.height, 1));
      l := l.(value := OrDefault(l.value, "'[...]'"));
      b := b.(inList := Some(l));
      err := ValidCel(l.value);
      if err.Some? {
        return;
      }
      l := l.(alignment := OrDefault(l.alignment, "left"));
      b := b.(inList := Some(l));
      err := ValidAlignment(l.alignment);
    }
  }

  /** `(*FieldObject).groom`: defaults the base path, grooms the children in
      order with this object as their path provider, then defaults and
      checks the card and list-view components. */
  method GroomObject(o: FieldObject, dflt: string, fieldLabel: string) returns (p: FieldObject, err: Option<Error>)
    decreases o
    ensures err == ObjectProblem(o)
    ensures err.None? ==> p == GroomedObject(o, dflt, fieldLabel)
    ensures err.None? ==> forall i :: 0 <= i < |p.fields| ==> p.fields[i].pathProvider == Provider(ObjectValuePath(p))
  {
    p := o.(basePath := OrDefault(o.basePath, dflt));
    var fs;
    fs, err := GroomFields(o.fields, p.basePath);
    p := p.(fields := fs);
    if err.Some? {
      return;
    }
    p := p.(uiComponent := OrDefault(p.uiComponent, "fieldSet"));
    if p.uiComponent != "fieldSet" {
      return p, Some(InvalidUiComponent(p.uiComponent));
    }
    if p.inList.Some? {
      var l := p.inList.value.(header := OrDefault(p.inList.value.header, fieldLabel));
      l := l.(uiComponent := OrDefault(l.uiComponent, "raw"));
      p := p.(inList := Some(l));
      if l.uiComponent != "raw" {
        return p, Some(InvalidUiComponent(l.uiComponent));
      }
      l := l.(alignment := OrDefault(l.alignment, "left"));
      p := p.(inList := Some(l));
      err := ValidAlignment(l.alignment);
      if err.Some? {
        return;
      }
      l := l.(value := OrDefault(l.value, "'{...}'"));
      p := p.(inList := Some(l));
    }
  }

  /** The loop over the children shared by `(*FieldObject).groom` and
      `Groom`: every field in order with the same path provider, stopping
      at the first failure, which is prefixed with the field's name. */
  method GroomFields(fs: seq<Field>, parentPath: string) returns (gs: seq<Field>, err: Option<Error>)
    decreases fs
    ensures err == FieldsProblem(fs, 0)
    ensures err.None? ==> gs == GroomedFields(fs, parentPath)
  {
    gs := fs;
    var i := 0;
    while i < |fs|
      invariant 0 <= i <= |fs| == |gs|
      invariant forall j :: 0 <= j < i ==> gs[j] == GroomedField(fs[j], parentPath)
      invariant forall j :: i <= j < |fs| ==> gs[j] == fs[j]
      invariant FieldsProblem(fs, 0) == FieldsProblem(fs, i)
    {
      var g;
      g, err := GroomField(fs[i], parentPath);
      gs := gs[i := g];
      if err.Some? {
        return gs, Some(Qualify(fs[i].name, err.value));
      }
      i := i + 1;
    }
    return gs, None;
  }

  /** `(*Field).groom`: remembers the provider, checks the name, derives an
      empty label from it, checks the expressions, then grooms the variants
      with the default value path `joinPath(provider path, name)`. */
  method GroomField(f: Field, parentPath: string) returns (g: Field, err: Option<Error>)
    decreases f
    ensures err == FieldProblem(f)
    ensures g.pathProvider == Provider(parentPath)
    ensures err.None? ==> g == GroomedField(f, parentPath)
  {
    g := f.(pathProvider := Provider(parentPath));
    if g.name == "" {
      return g, Some(FieldNameRequired);
    }
    if g.labelText == "" {
      var l := Labelize.Labelize(g.name);
      g := g.(labelText := l);
    }
    if g.validation.Some? {
      match GroomValidation(g.validation) {
        case Some(e) => return g, Some(AsInvalidValidation(e));
        case None =>
      }
    }
    match ValidCel(g.condition) {
      case Some(e) => return g, Some(InvalidCondition(e));
      case None =>
    }
    match ValidCel(g.readOnly) {
      case Some(e) => return g, Some(InvalidReadOnly(e));
      case None =>
    }
    var dflt := JoinPath(FieldValuePath(g), g.name);
    var t;
    t, err := GroomType(g.typ, dflt, g.labelText);
    g := g.(typ := t);
  }

  // ---------------------------------------------------------------------
  // Wrap
  // ---------------------------------------------------------------------

  datatype Source = Source(apiVersion: string, kind: string, namespace: string, selector: map<string, string>,
                           clusterScoped: bool)

  datatype Operations = Operations(view: bool, create: bool, update: bool, delete: bool)

  const WrapApiVersion: string := "krapper.kubotal.io/v1alpha1"
  const WrapKind: string := "Wrap"

  /** The decoded document. */
  class Wrap {
    var apiVersion: string
    var kind: string
    var name: string
    var version: string
    var labelText: string
    var description: string
    var menuMode: string
    var source: Source
    var operations: Operations
    var schemaValidation: Option<Validation>
    var schemaValuePath: string
    var fields: seq<Field>
    var template: string

    /** `GetValuePath`: top-level values live under the schema's value path. */
    function GetValuePath(): string
      reads this
    {
      schemaValuePath
    }

    /** The first error among the checks of the document's own properties. */
    function HeaderProblem(): Option<Error>
      reads this
    {
      if apiVersion != WrapApiVersion then Some(InvalidApiVersion(apiVersion))
      else if kind != WrapKind then Some(InvalidKind(kind))
      else if name == "" then Some(NameRequired)
      else if version == "" then Some(VersionRequired)
      else if menuMode == "" then Some(MenuModeRequired)
      else if !ValidMenuMode(menuMode) then Some(InvalidMenuMode(menuMode))
      else if source.apiVersion == "" then Some(NoSourceApiVersion)
      else if source.kind == "" then Some(NoSourceKind)
      else if schemaValidation.Some? && GroomValidation(schemaValidation).Some? then
        Some(InvalidGlobalValidation(GroomValidation(schemaValidation).value))
      else None
    }

    /** The first error of `Groom`: the document's own properties, then the
        schema fields. */
    function Problem(): Option<Error>
      reads this
    {
      if HeaderProblem().Some? then HeaderProblem() else FieldsProblem(fields, 0)
    }

    /** Groomed: every check passes, the label is set unless the name gives
        none, every field is groomed under the document. */
    predicate Fixed()
      reads this
    {
      apiVersion == WrapApiVersion && kind == WrapKind && name != "" && version != "" &&
      (labelText != "" || Labelize.LabelOf(name) == "") && ValidMenuMode(menuMode) &&
      source.apiVersion != "" && source.kind != "" &&
      FieldsFixed(fields, schemaValuePath)
    }

    /** `Groom`: the checks of the document's own properties, then the
        schema fields in order with the document as their path provider. */
    method Groom() returns (err: Option<Error>)
      modifies this
      ensures err == old(Problem())
      ensures err.None? ==> fields == GroomedFields(old(fields), schemaValuePath)
      ensures err.None? ==> Fixed()
      ensures err.None? ==> forall i :: 0 <= i < |fields| ==> fields[i].pathProvider == Provider(GetValuePath())
      ensures old(Fixed()) ==> err.None? && labelText == old(labelText) && fields == old(fields)
      ensures name == old(name) && apiVersion == old(apiVersion) && kind == old(kind)
      ensures version == old(version) && menuMode == old(menuMode) && source == old(source)
      ensures operations == old(operations) && schemaValidation == old(schemaValidation)
      ensures schemaValuePath == old(schemaValuePath) && description == old(description) && template == old(template)
      ensures old(apiVersion == WrapApiVersion && kind == WrapKind && name != "" && version != "") ==>
        labelText == OrDefault(old(labelText), Labelize.LabelOf(name))
    {
      FieldsGroomOutcome(fields, schemaValuePath);
      err := GroomHeader();
      if err.None? {
        var gs;
        gs, err := GroomFields(fields, GetValuePath());
        fields := gs;
      }
    }

    /** The first part of `Groom`: checks the header, identity, menu mode
        and source, derives an empty label from the name, and checks the
        global validation. Only the label may change. */
    method GroomHeader() returns (err: Option<Error>)
      modifies this
      ensures err == old(HeaderProblem())
      ensures name == old(name) && apiVersion == old(apiVersion) && kind == old(kind)
      ensures version == old(version) && menuMode == old(menuMode) && source == old(source)
      ensures operations == old(operations) && schemaValidation == old(schemaValidation)
      ensures schemaValuePath == old(schemaValuePath) && description == old(description) && template == old(template)
      ensures fields == old(fields)
      ensures old(apiVersion == WrapApiVersion && kind == WrapKind && name != "" && version != "") ==>
        labelText == OrDefault(old(labelText), Labelize.LabelOf(name))
      ensures !old(apiVersion == WrapApiVersion && kind == WrapKind && name != "" && version != "") ==>
        labelText == old(labelText)
    {
      if apiVersion != WrapApiVersion {
        return Some(InvalidApiVersion(apiVersion));
      }
      if kind != WrapKind {
        return Some(InvalidKind(kind));
      }
      if name == "" {
        return Some(NameRequired);
      }
      if version == "" {
        return Some(VersionRequired);
      }
      if labelText == "" {
        labelText := Labelize.Labelize(name);
      }
      if menuMode == "" {
        return Some(MenuModeRequired);
      }
      if !ValidMenuMode(menuMode) {
        return Some(InvalidMenuMode(menuMode));
      }
      if source.apiVersion == "" {
        return Some(NoSourceApiVersion);
      }
      if source.kind == "" {
        return Some(NoSourceKind);
      }
      if schemaValidation.Some? {
        match GroomValidation(schemaValidation) {
          case Some(e) => return Some(InvalidGlobalValidation(e));
          case None =>
        }
      }
      err := None;
    }
  }
}
