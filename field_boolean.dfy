/**
 * The boolean variant of a field (`FieldBoolean`) and its grooming.
 */
module BooleanField {
  import opened WrapBase

  /** `validBooleanUiComponents`. */
  predicate ValidUi(u: string)
  {
    u == "checkbox"
  }

  /** The list-view block of a boolean field; it has no alignment. */
  datatype Inlist = Inlist(hidden: bool, header: string, uiComponent: string)

  datatype FieldBoolean = FieldBoolean(default: bool, value: string, uiComponent: string, inlist: Option<Inlist>)

  /** The first check grooming fails, if any. */
  function Problem(f: FieldBoolean): Option<Error>
  {
    var ui := OrDefault(f.uiComponent, "checkbox");
    if !ValidUi(ui) then Some(InvalidUiComponent(ui))
    else if f.inlist.None? then None
    else
      var iui := OrDefault(f.inlist.value.uiComponent, ui);
      if !ValidUi(iui) then Some(InvalidUiComponent(iui)) else None
  }

  /** Groomed for this default and label: every defaulted property is set
      (or its default is empty too) and every checked one is valid. */
  predicate Fixed(f: FieldBoolean, dflt: string, fieldLabel: string)
    ensures Fixed(f, dflt, fieldLabel) ==> Problem(f) == None
  {
    (f.value != "" || dflt == "") && ValidUi(f.uiComponent) &&
    (f.inlist.Some? ==> (f.inlist.value.header != "" || fieldLabel == "") && ValidUi(f.inlist.value.uiComponent))
  }

  /** f with every empty property given its default: the value path, the
      UI component, and in the list view the label and the outer component. */
  function Defaulted(f: FieldBoolean, dflt: string, fieldLabel: string): (g: FieldBoolean)
    ensures Problem(f) == None <==> Fixed(g, dflt, fieldLabel)
    ensures Fixed(f, dflt, fieldLabel) ==> g == f
  {
    var ui := OrDefault(f.uiComponent, "checkbox");
    f.(value := OrDefault(f.value, dflt), uiComponent := ui,
       inlist := if f.inlist.None? then None
                 else Some(f.inlist.value.(header := OrDefault(f.inlist.value.header, fieldLabel),
                                           uiComponent := OrDefault(f.inlist.value.uiComponent, ui))))
  }

  /** `groom`: fills the defaults and checks the UI components; the result is
      the groomed record. */
  method Groom(f: FieldBoolean, dflt: string, fieldLabel: string) returns (g: FieldBoolean, err: Option<Error>)
    ensures err == Problem(f)
    ensures err.None? ==> g == Defaulted(f, dflt, fieldLabel)
  {
    g := f.(value := OrDefault(f.value, dflt));
    err := ValidCel(g.value);
    if err.Some? {
      return;
    }
    g := g.(uiComponent := OrDefault(g.uiComponent, "checkbox"));
    if !ValidUi(g.uiComponent) {
      return g, Some(InvalidUiComponent(g.uiComponent));
    }
    if g.inlist.Some? {
      var l := g.inlist.value.(header := OrDefault(g.inlist.value.header, fieldLabel));
      l := l.(uiComponent := OrDefault(l.uiComponent, g.uiComponent));
      g := g.(inlist := Some(l));
      if !ValidUi(l.uiComponent) {
        return g, Some(InvalidUiComponent(l.uiComponent));
      }
    }
    return g, None;
  }
}
