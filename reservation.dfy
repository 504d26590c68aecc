/** The reservation page (`ReservationSection` and `FormField`): the fixed
    booking form and how each field wires its label to its input. The
    multi-line hero heading is `HeroTitle.Heading`. */
module Reservation {
  import opened Options

  /** The decorations a field may carry at its right edge. */
  datatype Glyph = Calendar | Clock

  /** The props of one `FormField`. */
  datatype FieldSpec = FieldSpec(labelText: string, inputType: string, placeholder: string, name: string, icon: Option<Glyph>)

  /** What `FormField` renders: a label pointing at an input, and an icon
      wrapper when an icon is given. */
  datatype FieldView = FieldView(
    labelFor: string, labelText: string,
    inputType: string, inputId: string, inputName: string, placeholder: string,
    iconWrapper: Option<Glyph>)

  /** `FormField`: the label's `htmlFor`, the input's `id` and its `name` are
      all the `name` prop, and the icon wrapper appears exactly when an icon is given. */
  function RenderField(f: FieldSpec): (v: FieldView)
    ensures v.labelFor == f.name && v.inputId == f.name && v.inputName == f.name
    ensures v.labelText == f.labelText && v.inputType == f.inputType && v.placeholder == f.placeholder
    ensures v.iconWrapper.Some? <==> f.icon.Some?
    ensures v.iconWrapper == f.icon
  {
    FieldView(f.name, f.labelText, f.inputType, f.name, f.name, f.placeholder, f.icon)
  }

  /** The six `FormField`s of the booking form, in document order: every field
      has its own name, and exactly the date and time pickers carry an icon. */
  function BookingFields(): (fields: seq<FieldSpec>)
    ensures |fields| == 6
    ensures forall i, j :: 0 <= i < j < |fields| ==> fields[i].name != fields[j].name
    ensures forall i :: 0 <= i < |fields| ==>
      (fields[i].icon.Some? <==> fields[i].inputType == "date" || fields[i].inputType == "time")
  {
    [ FieldSpec("NAME", "text", "Jane Smith", "name", None),
      FieldSpec("EMAIL", "email", "example@framer.com", "email", None),
      FieldSpec("PHONE NUMBER", "tel", "+420 123 456 789", "phone", None),
      FieldSpec("PEOPLE", "text", "1-10", "people", None),
      FieldSpec("DATE", "date", "mm/dd/yyyy", "date", Some(Calendar)),
      FieldSpec("TIME", "time", "--:-- --", "time", Some(Clock)) ]
  }

  /** The rendered form fields. */
  function RenderForm(fields: seq<FieldSpec>): (views: seq<FieldView>)
    ensures |views| == |fields|
    ensures forall i :: 0 <= i < |views| ==> views[i] == RenderField(fields[i])
  {
    if fields == [] then [] else [RenderField(fields[0])] + RenderForm(fields[1..])
  }

  /** The form has six fields: name, email, phone, people, date and time,
      of types text, email, tel, text, date and time; only date and time carry an icon. */
  lemma BookingFormShape()
    ensures |BookingFields()| == 6
    ensures seq(6, i requires 0 <= i < 6 => BookingFields()[i].name)
      == ["name", "email", "phone", "people", "date", "time"]
    ensures seq(6, i requires 0 <= i < 6 => BookingFields()[i].inputType)
      == ["text", "email", "tel", "text", "date", "time"]
    ensures forall i :: 0 <= i < 6 ==> (BookingFields()[i].icon.Some? <==> i >= 4)
  {
  }

  /** Every label of the booking form points at exactly one input: the input ids are distinct. */
  lemma BookingLabelsAreUnambiguous()
    ensures var views := RenderForm(BookingFields());
      && (forall i :: 0 <= i < |views| ==> views[i].labelFor == views[i].inputId)
      && (forall i, j :: 0 <= i < j < |views| ==> views[i].inputId != views[j].inputId)
  {
    var views := RenderForm(BookingFields());
    assert forall i :: 0 <= i < |views| ==> views[i].inputId == BookingFields()[i].name;
  }
}
