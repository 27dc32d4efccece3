/**
 * The number variant of a field (`FieldNumber`) and its grooming.
 */
module NumberField {
  import opened WrapBase

  /** A float64, carried by its bit pattern and never computed with. */
  datatype Float64 = Float64(bits: bv64)

  /** `validNumberUiComponents`. */
  predicate ValidUi(u: string)
  {
    u == "raw"
  }

  /** The list-view block of a number field. */
  datatype Inlist = Inlist(hidden: bool, header: string, uiComponent: string, alignment: string, format: string)

  /** `format` is a `fmt.Sprintf` format. */
  datatype FieldNumber = FieldNumber(default: Option<Float64>, enum: seq<Float64>, value: string, uiComponent: string,
                                     format: string, inlist: Option<Inlist>)

  /** The first check grooming fails, if any. */
  function Problem(f: FieldNumber): Option<Error>
  {
    var ui := OrDefault(f.uiComponent, "raw");
    if !ValidUi(ui) then Some(InvalidUiComponent(ui))
    else if f.inlist.None? then None
    else
      var iui := OrDefault(f.inlist.value.uiComponent, ui);
      if !ValidUi(iui) then Some(InvalidUiComponent(iui))
      else ValidAlignment(OrDefault(f.inlist.value.alignment, "left"))
  }

  /** Groomed for this default and label. */
  predicate Fixed(f: FieldNumber, dflt: string, fieldLabel: string)
    ensures Fixed(f, dflt, fieldLabel) ==> Problem(f) == None
  {
    (f.value != "" || dflt == "") && ValidUi(f.uiComponent) && f.format != "" &&
    (f.inlist.Some? ==>
      (f.inlist.value.header != "" || fieldLabel == "") && ValidUi(f.inlist.value.uiComponent) &&
      IsAlignment(f.inlist.value.alignment) && f.inlist.value.format != "")
  }

  /** f with every empty property given its default: the value path, the
      UI component, the "%f" format, and in the list view the label, the
      outer component, the left alignment and the outer format. */
  function Defaulted(f: FieldNumber, dflt: string, fieldLabel: string): (g: FieldNumber)
    ensures Problem(f) == None <==> Fixed(g, dflt, fieldLabel)
    ensures Fixed(f, dflt, fieldLabel) ==> g == f
  {
    var ui := OrDefault(f.uiComponent, "raw");
    var format := OrDefault(f.format, "%f");
    f.(value := OrDefault(f.value, dflt), uiComponent := ui, format := format,
       inlist := if f.inlist.None? then None
                 else var l := f.inlist.value;
                      Some(Inlist(l.hidden, OrDefault(l.header, fieldLabel), OrDefault(l.uiComponent, ui),
                                  OrDefault(l.alignment, "left"), OrDefault(l.format, format))))
  }

  /** `groom`: fills the defaults (the format of the list view from the
      already defaulted outer one), then checks the UI components and the
      alignment; the result is the groomed record. */
  method Groom(f: FieldNumber, dflt: string, fieldLabel: string) returns (g: FieldNumber, err: Option<Error>)
    ensures err == Problem(f)
    ensures err.None? ==> g == Defaulted(f, dflt, fieldLabel)
  {
    g := f.(value := OrDefault(f.value, dflt));
    err := ValidCel(g.value);
    if err.Some? {
      return;
    }
    g := g.(uiComponent := OrDefault(g.uiComponent, "raw"));
    if !ValidUi(g.uiComponent) {
      return g, Some(InvalidUiComponent(g.uiComponent));
    }
    g := g.(format := OrDefault(g.format, "%f"));
    if g.inlist.Some? {
      var l := g.inlist.value.(header := OrDefault(g.inlist.value.header, fieldLabel));
      l := l.(uiComponent := OrDefault(l.uiComponent, g.uiComponent));
      g := g.(inlist := Some(l));
      if !ValidUi(l.uiComponent) {
        return g, Some(InvalidUiComponent(l.uiComponent));
      }
      l := l.(alignment := OrDefault(l.alignment, "left"));
      g := g.(inlist := Some(l));
      err := ValidAlignment(l.alignment);
      if err.Some? {
        return;
      }
      l := l.(format := OrDefault(l.format, g.format));
      g := g.(inlist := Some(l));
    }
    return g, None;
  }
}
