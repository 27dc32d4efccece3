/**
 * The string variant of a field (`FieldString`) and its grooming.
 */
module StringField {
  import opened WrapBase

  /** `validStringUiComponents`. */
  predicate ValidUi(u: string)
  {
    u == "input" || u == "textarea"
  }

  /** The list-view block of a string field. */
  datatype Inlist = Inlist(hidden: bool, header: string, uiComponent: string, alignment: string,
                           value: string, width: int, height: int)

  datatype FieldString = FieldString(default: string, enum: seq<string>, value: string, uiComponent: string,
                                     width: int, height: int, inlist: Option<Inlist>)

  /** `&FieldString{}`: every property at its zero value. */
  const Zero: FieldString := FieldString("", [], "", "", 0, 0, None)

  /** The UI component once defaulted: "input" for a one-line field,
      "textarea" otherwise. */
  function DefaultedUi(f: FieldString): string
  {
    if f.uiComponent != "" then f.uiComponent
    else if OrDefaultInt(f.height, 1) == 1 then "input"
    else "textarea"
  }

  /** The first check grooming fails, if any. The CEL checks accept every
      expression, so the outcome does not depend on the default received. */
  function Problem(f: FieldString): Option<Error>
  {
    var ui := DefaultedUi(f);
    if !ValidUi(ui) then Some(InvalidUiComponent(ui))
    else if f.inlist.None? then None
    else
      var iui := OrDefault(f.inlist.value.uiComponent, ui);
      if !ValidUi(iui) then Some(InvalidUiComponent(iui))
      else ValidAlignment(OrDefault(f.inlist.value.alignment, "left"))
  }

  /** Groomed for this default and label. */
  predicate Fixed(f: FieldString, dflt: string, fieldLabel: string)
    ensures Fixed(f, dflt, fieldLabel) ==> Problem(f) == None
  {
    (f.value != "" || dflt == "") && f.width != 0 && f.height != 0 && ValidUi(f.uiComponent) &&
    (f.inlist.Some? ==>
      var l := f.inlist.value;
      (l.header != "" || fieldLabel == "") && ValidUi(l.uiComponent) && IsAlignment(l.alignment) &&
      (l.value != "" || f.value == "") && l.width != 0 && l.height != 0)
  }

  /** The list-view block with every empty property given its default:
      the label, the outer component, value and width, the left alignment
      and one line. */
  function DefaultedInlist(l: Inlist, ui: string, value: string, width: int, fieldLabel: string): Inlist
  {
    Inlist(l.hidden, OrDefault(l.header, fieldLabel), OrDefault(l.uiComponent, ui), OrDefault(l.alignment, "left"),
           OrDefault(l.value, value), OrDefaultInt(l.width, width), OrDefaultInt(l.height, 1))
  }

  /** f with every empty property given its default: the value path, a
      width of 30, one line, the UI component for that height, and the
      list-view block. */
  function Defaulted(f: FieldString, dflt: string, fieldLabel: string): (g: FieldString)
    ensures Problem(f) == None <==> Fixed(g, dflt, fieldLabel)
    ensures Fixed(f, dflt, fieldLabel) ==> g == f
  {
    var value, width := OrDefault(f.value, dflt), OrDefaultInt(f.width, 30);
    var ui := DefaultedUi(f);
    f.(value := value, width := width, height := OrDefaultInt(f.height, 1), uiComponent := ui,
       inlist := if f.inlist.None? then None else Some(DefaultedInlist(f.inlist.value, ui, value, width, fieldLabel)))
  }

  /** `groom`: fills the defaults, then checks the UI components and the
      alignment; the result is the groomed record. */
  method Groom(f: FieldString, dflt: string, fieldLabel: string) returns (g: FieldString, err: Option<Error>)
    ensures err == Problem(f)
    ensures err.None? ==> g == Defaulted(f, dflt, fieldLabel)
  {
    g := f.(value := OrDefault(f.value, dflt));
    err := ValidCel(g.value);
    if err.Some? {
      return;
    }
    g := g.(width := OrDefaultInt(g.width, 30), height := OrDefaultInt(g.height, 1));
    if g.uiComponent == "" {
      if g.height == 1 {
        g := g.(uiComponent := "input");
      } else {
        g := g.(uiComponent := "textarea");
      }
    }
    if !ValidUi(g.uiComponent) {
      return g, Some(InvalidUiComponent(g.uiComponent));
    }
    if g.inlist.Some? {
      var l;
      l, err := GroomInlist(g.inlist.value, g.uiComponent, g.value, g.width, fieldLabel);
      g := g.(inlist := Some(l));
      if err.Some? {
        return;
      }
    }
    return g, None;
  }

  /** The in-list part of `groom`: header, UI component, alignment, value,
      width and height in the source's order. */
  method GroomInlist(l0: Inlist, ui: string, value: string, width: int, fieldLabel: string)
    returns (l: Inlist, err: Option<Error>)
    ensures err == (var iui := OrDefault(l0.uiComponent, ui);
                    if !ValidUi(iui) then Some(InvalidUiComponent(iui))
                    else ValidAlignment(OrDefault(l0.alignment, "left")))
    ensures err.None? ==> l == DefaultedInlist(l0, ui, value, width, fieldLabel)
  {
    l := l0.(header := OrDefault(l0.header, fieldLabel));
    l := l.(uiComponent := OrDefault(l.uiComponent, ui));
    if !ValidUi(l.uiComponent) {
      return l, Some(InvalidUiComponent(l.uiComponent));
    }
    l := l.(alignment := OrDefault(l.alignment, "left"));
    err := ValidAlignment(l.alignment);
    if err.Some? {
      return;
    }
    l := l.(value := OrDefault(l.value, value));
    // The source checks the outer value again here, not the in-list one.
    err := ValidCel(value);
    if err.Some? {
      return;
    }
    l := l.(width := OrDefaultInt(l.width, width), height := OrDefaultInt(l.height, 1));
  }
}
