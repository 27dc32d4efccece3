/**
 * The integer variant of a field (`FieldInteger`) and its grooming.
 */
module IntegerField {
  import opened WrapBase

  /** `validIntegerUiComponents`. */
  predicate ValidUi(u: string)
  {
    u == "raw"
  }

  /** The list-view block of an integer field. */
  datatype Inlist = Inlist(hidden: bool, header: string, uiComponent: string, alignment: string)

  datatype FieldInteger = FieldInteger(default: Option<int>, enum: seq<int>, value: string, uiComponent: string,
                                       inlist: Option<Inlist>)

  /** The first check grooming fails, if any. */
  function Problem(f: FieldInteger): Option<Error>
  {
    var ui := OrDefault(f.uiComponent, "raw");
    if !ValidUi(ui) then Some(InvalidUiComponent(ui))
    else if f.inlist.None? then None
    else
      var iui := OrDefault(f.inlist.value.uiComponent, ui);
      if !ValidUi(iui) then Some(InvalidUiComponent(iui))
      else ValidAlignment(OrDefault(f.inlist.value.alignment, "left"))
  }

  /** Groomed for this default and label. */
  predicate Fixed(f: FieldInteger, dflt: string, fieldLabel: string)
    ensures Fixed(f, dflt, fieldLabel) ==> Problem(f) == None
  {
    (f.value != "" || dflt == "") && ValidUi(f.uiComponent) &&
    (f.inlist.Some? ==>
      (f.inlist.value.header != "" || fieldLabel == "") && ValidUi(f.inlist.value.uiComponent) &&
      IsAlignment(f.inlist.value.alignment))
  }

  /** f with every empty property given its default: the value path, the
      UI component, and in the list view the label, the outer component and
      the left alignment. */
  function Defaulted(f: FieldInteger, dflt: string, fieldLabel: string): (g: FieldInteger)
    ensures Problem(f) == None <==> Fixed(g, dflt, fieldLabel)
    ensures Fixed(f, dflt, fieldLabel) ==> g == f
  {
    var ui := OrDefault(f.uiComponent, "raw");
    f.(value := OrDefault(f.value, dflt), uiComponent := ui,
       inlist := if f.inlist.None? then None
                 else var l := f.inlist.value;
                      Some(Inlist(l.hidden, OrDefault(l.header, fieldLabel), OrDefault(l.uiComponent, ui),
                                  OrDefault(l.alignment, "left"))))
  }

  /** `groom`: fills the defaults, then checks the UI components and the
      alignment; the result is the groomed record. */
  method Groom(f: FieldInteger, dflt: string, fieldLabel: string) returns (g: FieldInteger, err: Option<Error>)
    ensures err == Problem(f)
    ensures err.None? ==> g == Defaulted(f, dflt, fieldLabel)
  {
    g := f.(value := OrDefault(f.value, dflt));
    err := ValidCel(g.value);
    if err.Some? {
      return;
    }
    g := g.(uiComponent := OrDefault(g.uiComponent, "raw"));
    if !ValidUi(g.uiComponent) {
      return g, Some(InvalidUiComponent(g.uiComponent));
    }
    if g.inlist.Some? {
      var l := g.inlist.value.(header := OrDefault(g.inlist.value.header, fieldLabel));
      l := l.(uiComponent := OrDefault(l.uiComponent, g.uiComponent));
      g := g.(inlist := Some(l));
      if !ValidUi(l.uiComponent) {
        return g, Some(InvalidUiComponent(l.uiComponent));
      }
      l := l.(alignment := OrDefault(l.alignment, "left"));
      g := g.(inlist := Some(l));
      err := ValidAlignment(l.alignment);
      if err.Some? {
        return;
      }
    }
    return g, None;
  }
}
