// The form's input elements and the three ways the page reads them:
// `val(id)`, `isChecked(id)` and `findCheckedRadio(name)`, plus the two
// predicates that decide which alert and capacity panels are visible.
module Form {
  import opened Text

  /** The element kinds the page distinguishes: checkboxes, radios, and every
      other input, textarea or select (which only has a value). */
  datatype InputKind = Checkbox | Radio | TextInput

  /** One element matched by `input, textarea, select`. An absent id or name is "". */
  datatype Field = Field(kind: InputKind, id: string, name: string, value: string, checked: bool)

  predicate Checkable(f: Field)
  {
    f.kind == Checkbox || f.kind == Radio
  }

  /** The element's `checked` property: never true on a text-like input. */
  predicate IsOn(f: Field)
  {
    Checkable(f) && f.checked
  }

  /** The index of the first field with id `id`, in document order. */
  function IdIndex(form: seq<Field>, id: string): Option<nat>
    decreases |form|
  {
    if form == [] then None
    else if form[0].id == id then Some(0)
    else match IdIndex(form[1..], id)
      case None => None
      case Some(k) => Some(k + 1)
  }

  /** `document.getElementById(id)`: the first element with that id; "" names none. */
  function ById(form: seq<Field>, id: string): Option<nat>
  {
    if id == "" then None else IdIndex(form, id)
  }

  /** `getElementById` finds the first element carrying the id, or reports that none does. */
  lemma {:induction false} ByIdFirst(form: seq<Field>, id: string)
    ensures ById(form, id).Some? ==>
      var i := ById(form, id).value;
      id != "" && i < |form| && form[i].id == id && forall j :: 0 <= j < i ==> form[j].id != id
    ensures ById(form, id).None? ==> id == "" || forall j :: 0 <= j < |form| ==> form[j].id != id
    decreases |form|
  {
    if id != "" && form != [] && form[0].id != id {
      ByIdFirst(form[1..], id);
      assert forall j :: 1 <= j < |form| ==> form[j] == form[1..][j - 1];
    }
  }

  /** `val(id)`: the element's value, or "" when there is no such element. */
  function Val(form: seq<Field>, id: string): string
  {
    match ById(form, id)
    case None => ""
    case Some(i) => if i < |form| then form[i].value else ""
  }

  /** `val` reads the value of the first element with the id, and "" when there is none. */
  lemma ValOfFirst(form: seq<Field>, id: string)
    ensures (forall j :: 0 <= j < |form| ==> form[j].id != id) ==> Val(form, id) == ""
    ensures forall j ::
      (0 <= j < |form| && form[j].id == id && id != "" && forall k :: 0 <= k < j ==> form[k].id != id)
      ==> Val(form, id) == form[j].value
  {
    ByIdFirst(form, id);
  }

  /** `isChecked(id)`: the element exists and is a ticked checkbox or radio. */
  predicate IsChecked(form: seq<Field>, id: string)
  {
    match ById(form, id)
    case None => false
    case Some(i) => i < |form| && IsOn(form[i])
  }

  predicate OnIn(f: Field, name: string)
  {
    f.name == name && IsOn(f)
  }

  /** `findCheckedRadio(name)`: the value of the first ticked element named
      `name`, or "" when none is ticked. */
  function CheckedRadio(form: seq<Field>, name: string): string
    decreases |form|
  {
    if form == [] then ""
    else if OnIn(form[0], name) then form[0].value
    else CheckedRadio(form[1..], name)
  }

  /** Nothing is selected in a group with no ticked element. */
  lemma {:induction false} CheckedRadioNone(form: seq<Field>, name: string)
    requires forall j :: 0 <= j < |form| ==> !OnIn(form[j], name)
    ensures CheckedRadio(form, name) == ""
    decreases |form|
  {
    if form != [] {
      var rest := form[1..];
      forall j | 0 <= j < |rest|
        ensures !OnIn(rest[j], name)
      {
        assert rest[j] == form[j + 1];
      }
      CheckedRadioNone(rest, name);
    }
  }

  /** The selected value is that of the first ticked element of the group. */
  lemma {:induction false} CheckedRadioFirst(form: seq<Field>, name: string, j: nat)
    requires j < |form| && OnIn(form[j], name)
    requires forall k :: 0 <= k < j ==> !OnIn(form[k], name)
    ensures CheckedRadio(form, name) == form[j].value
    decreases j
  {
    if j > 0 {
      var rest := form[1..];
      assert !OnIn(form[0], name);
      forall k | 0 <= k < j - 1
        ensures !OnIn(rest[k], name)
      {
        assert rest[k] == form[k + 1];
      }
      CheckedRadioFirst(rest, name, j - 1);
    }
  }

  /** The search loop of `findCheckedRadio`, over the page's elements. */
  method FindCheckedRadio(fields: array<Field>, name: string) returns (r: string)
    ensures r == CheckedRadio(fields[..], name)
    ensures (forall j :: 0 <= j < fields.Length ==> !OnIn(fields[j], name)) ==> r == ""
    ensures forall j ::
      (0 <= j < fields.Length && OnIn(fields[j], name) && forall k :: 0 <= k < j ==> !OnIn(fields[k], name))
      ==> r == fields[j].value
  {
    var i := 0;
    while i < fields.Length
      invariant 0 <= i <= fields.Length
      invariant forall j :: 0 <= j < i ==> !OnIn(fields[j], name)
      invariant CheckedRadio(fields[i..], name) == CheckedRadio(fields[..], name)
    {
      if OnIn(fields[i], name) {
        CheckedRadioFirst(fields[..], name, i);
        return fields[i].value;
      }
      assert fields[i..][1..] == fields[i + 1..];
      i := i + 1;
    }
    CheckedRadioNone(fields[..], name);
    return "";
  }

  /** `checkAsaAlert`: the high-risk ASA alert box is shown. */
  predicate AsaAlertShown(form: seq<Field>)
  {
    var grade := CheckedRadio(form, "asa-grade");
    grade == "III" || grade == "IV" || grade == "V"
  }

  /** `toggleCapacity`: which of the two capacity panels is shown. */
  datatype CapacityPanels = CapacityPanels(yesShown: bool, noShown: bool)

  function Capacity(form: seq<Field>): (r: CapacityPanels)
    ensures r.yesShown != r.noShown
    ensures r.noShown <==> CheckedRadio(form, "capacity") == "No"
  {
    var no := CheckedRadio(form, "capacity") == "No";
    CapacityPanels(!no, no)
  }

  /** The ASA grade as the log prints it: the selected grade, "-" when none is
      selected, and an "E" appended for an emergency only when a grade is shown. */
  function AsaGradeText(form: seq<Field>): (r: string)
    ensures CheckedRadio(form, "asa-grade") == "" ==> r == "-"
    ensures var g := CheckedRadio(form, "asa-grade");
      g != "" && g != "-" ==> r == g + (if IsChecked(form, "asa-emergency") then "E" else "")
  {
    var asa := OrElse(CheckedRadio(form, "asa-grade"), "-");
    if IsChecked(form, "asa-emergency") && asa != "-" then asa + "E" else asa
  }
}
