/**
 * The duration variant of a field (`FieldDuration`) and its grooming.
 */
module DurationField {
  import opened WrapBase

  /** `validDurationUiComponents`. */
  predicate ValidUi(u: string)
  {
    u == "raw"
  }

  /** The list-view block of a duration field. */
  datatype InList = InList(hidden: bool, header: string, uiComponent: string, alignment: string)

  /** `default` is a `time.Duration`, in nanoseconds. */
  datatype FieldDuration = FieldDuration(default: int, value: string, uiComponent: string, inList: Option<InList>)

  /** The first check grooming fails, if any. */
  function Problem(f: FieldDuration): Option<Error>
  {
    var ui := OrDefault(f.uiComponent, "raw");
    if !ValidUi(ui) then Some(InvalidUiComponent(ui))
    else if f.inList.None? then None
    else
      var iui := OrDefault(f.inList.value.uiComponent, ui);
      if !ValidUi(iui) then Some(InvalidUiComponent(iui))
      else ValidAlignment(OrDefault(f.inList.value.alignment, "left"))
  }

  /** Groomed for this default and label. */
  predicate Fixed(f: FieldDuration, dflt: string, fieldLabel: string)
    ensures Fixed(f, dflt, fieldLabel) ==> Problem(f) == None
  {
    (f.value != "" || dflt == "") && ValidUi(f.uiComponent) &&
    (f.inList.Some? ==>
      (f.inList.value.header != "" || fieldLabel == "") && ValidUi(f.inList.value.uiComponent) &&
      IsAlignment(f.inList.value.alignment))
  }

  /** f with every empty property given its default: the value path, the
      UI component, and in the list view the label, the outer component and
      the left alignment. */
  function Defaulted(f: FieldDuration, dflt: string, fieldLabel: string): (g: FieldDuration)
    ensures Problem(f) == None <==> Fixed(g, dflt, fieldLabel)
    ensures Fixed(f, dflt, fieldLabel) ==> g == f
  {
    var ui := OrDefault(f.uiComponent, "raw");
    f.(value := OrDefault(f.value, dflt), uiComponent := ui,
       inList := if f.inList.None? then None
                 else var l := f.inList.value;
                      Some(InList(l.hidden, OrDefault(l.header, fieldLabel), OrDefault(l.uiComponent, ui),
                                  OrDefault(l.alignment, "left"))))
  }

  /** `groom`: fills the defaults, then checks the UI components and the
      alignment; the result is the groomed record. */
  method Groom(f: FieldDuration, dflt: string, fieldLabel: string) returns (g: FieldDuration, err: Option<Error>)
    ensures err == Problem(f)
    ensures err.None? ==> g == Defaulted(f, dflt, fieldLabel)
  {
    g := f.(value := OrDefault(f.value, dflt));
    err := ValidCel(g.value);
    if err.Some? {
      return;
    }
    g := g.(uiComponent := OrDefault(g.uiComponent, "raw"));
    if !ValidUi(g.uiComponent) {
      return g, Some(InvalidUiComponent(g.uiComponent));
    }
    if g.inList.Some? {
      var l := g.inList.value.(header := OrDefault(g.inList.value.header, fieldLabel));
      l := l.(uiComponent := OrDefault(l.uiComponent, g.uiComponent));
      g := g.(inList := Some(l));
      if !ValidUi(l.uiComponent) {
        return g, Some(InvalidUiComponent(l.uiComponent));
      }
      l := l.(alignment := OrDefault(l.alignment, "left"));
      g := g.(inList := Some(l));
      err := ValidAlignment(l.alignment);
      if err.Some? {
        return;
      }
    }
    return g, None;
  }
}
