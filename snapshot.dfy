// The auto-save record. Saving flattens the form and the rest of the page into
// one key -> value record; loading writes that record back onto the form and
// the page. The record is kept as a map (what the page stores as JSON). Its
// keys are either a field's key or one of the page's ten own keys, kept apart;
// the two tables and the dose panel are kept as rows and advice rather than as
// the HTML the page serialises them to.
module Snapshot {
  import opened Text
  import opened Form
  import opened Ledger
  import opened DoseAdvisor

  /** A value in the saved record. */
  datatype Value =
    | Flag(on: bool)
    | Str(text: string)
    | Number(n: int)
    | DrugTable(drugs: seq<DrugRow>)
    | ObsTable(obs: seq<ObsRow>)
    | DoseHtml(advice: Option<Advice>)

  /** JavaScript truthiness of a saved value: a serialised table or panel is truthy
      when it holds any markup, which an empty table or an unused panel does not. */
  predicate Truthy(v: Value)
  {
    match v
    case Flag(b) => b
    case Str(s) => s != ""
    case Number(n) => n != 0
    case DrugTable(rows) => rows != []
    case ObsTable(rows) => rows != []
    case DoseHtml(a) => a.Some?
  }

  /** What `el.value = data[id]` writes into a text field: the string itself, and
      JavaScript's string form of a flag or a number. */
  function AsText(v: Value): (r: string)
    ensures v.Str? ==> r == v.text
  {
    match v
    case Str(s) => s
    case Flag(b) => if b then "true" else "false"
    case Number(n) => IntToString(n)
    case _ => ""
  }

  /** A one-shot button and its output: the time it shows and whether the button is
      disabled. */
  datatype Stamp = Stamp(text: string, latched: bool)

  /** Everything the record holds besides the form fields. */
  datatype PageData = PageData(
    drugs: seq<DrugRow>, obs: seq<ObsRow>, advice: Option<Advice>, adviceVisible: bool,
    display: string, seconds: int, running: bool,
    procStart: Stamp, procEnd: Stamp, awake: Stamp)

  /** The page as it is first served: empty tables, no advice, the timer at zero and
      all three stamp buttons live. */
  function FreshPage(): (p: PageData)
    ensures p.drugs == [] && p.obs == [] && p.seconds == 0 && !p.running
  {
    PageData([], [], None, false, "00:00:00", 0, false, Stamp("", false), Stamp("", false), Stamp("", false))
  }

  /** The record's own keys, for what is not a form field. */
  datatype Slot =
    | DrugTableHtml | ObsTableHtml | DoseOutputHtml | DoseOutputVisible
    | TimerDisplay | SecondsElapsed | TimerRunning
    | StartText | EndText | AwakeText

  /** The name each slot has in the stored record. */
  function SlotName(s: Slot): string
  {
    match s
    case DrugTableHtml => "drug-table-html"
    case ObsTableHtml => "obs-table-html"
    case DoseOutputHtml => "dose-output-html"
    case DoseOutputVisible => "dose-output-visible"
    case TimerDisplay => "timer-display"
    case SecondsElapsed => "seconds-elapsed"
    case TimerRunning => "timer-running"
    case StartText => "btn-start-text"
    case EndText => "btn-end-text"
    case AwakeText => "btn-awake-text"
  }

  /** A record key: a field's key, or one of the page's slots. */
  datatype Key = Named(name: string) | Own(slot: Slot)

  type Record = map<Key, Value>

  // ------------------------------------------------------------------ capture

  /** The key a ticked checkbox or radio is saved under: its id, or `name:value`
      when it has none. A text field is saved under its id. */
  function SaveKey(f: Field): (k: Key)
    ensures k.Named? && k.name != ""
  {
    if f.id != "" then Named(f.id) else Named(f.name + ":" + f.value)
  }

  /** Fields that can own a key in the record. */
  predicate Keyed(f: Field)
  {
    Checkable(f) || f.id != ""
  }

  /** The fields the save loop writes: ticked checkboxes and radios, and text fields with an id. */
  predicate Saved(f: Field)
  {
    IsOn(f) || (f.kind == TextInput && f.id != "")
  }

  function Entry(f: Field): Value
  {
    if Checkable(f) then Flag(true) else Str(f.value)
  }

  /** The record written by the save loop over the fields, in document order: a later
      field saved under the same key overwrites an earlier one. */
  function FieldEntries(form: seq<Field>): Record
    decreases |form|
  {
    if form == [] then map[]
    else
      var m := FieldEntries(form[..|form| - 1]);
      var f := form[|form| - 1];
      if Saved(f) then m[SaveKey(f) := Entry(f)] else m
  }

  /** An observation row as its serialised markup keeps it: the label is an attribute
      of its input and survives, the vitals typed into the other inputs do not. */
  function Serialised(o: ObsRow): (r: ObsRow)
    ensures r.time == o.time && !HasVitals(r)
  {
    ObsRow(o.time, "", "", "", "")
  }

  function SerialisedRows(obs: seq<ObsRow>): (r: seq<ObsRow>)
    ensures |r| == |obs|
    ensures forall i :: 0 <= i < |r| ==> r[i] == Serialised(obs[i])
  {
    seq(|obs|, i requires 0 <= i < |obs| => Serialised(obs[i]))
  }

  /** The record entries written after the field loop. */
  function PageEntries(p: PageData): (m: Record)
    ensures forall k :: k in m ==> k.Own?
  {
    map[
      Own(DrugTableHtml) := DrugTable(p.drugs),
      Own(ObsTableHtml) := ObsTable(SerialisedRows(p.obs)),
      Own(DoseOutputHtml) := DoseHtml(p.advice),
      Own(DoseOutputVisible) := Flag(p.adviceVisible),
      Own(TimerDisplay) := Str(p.display),
      Own(SecondsElapsed) := Number(p.seconds),
      Own(TimerRunning) := Flag(p.running),
      Own(StartText) := Str(p.procStart.text),
      Own(EndText) := Str(p.procEnd.text),
      Own(AwakeText) := Str(p.awake.text)]
  }

  /** The value `saveState` writes under each of the page's own keys. */
  function SlotValue(p: PageData, s: Slot): Value
  {
    match s
    case DrugTableHtml => DrugTable(p.drugs)
    case ObsTableHtml => ObsTable(SerialisedRows(p.obs))
    case DoseOutputHtml => DoseHtml(p.advice)
    case DoseOutputVisible => Flag(p.adviceVisible)
    case TimerDisplay => Str(p.display)
    case SecondsElapsed => Number(p.seconds)
    case TimerRunning => Flag(p.running)
    case StartText => Str(p.procStart.text)
    case EndText => Str(p.procEnd.text)
    case AwakeText => Str(p.awake.text)
  }

  /** Every slot is written, whatever the form holds. */
  lemma CaptureSlot(form: seq<Field>, p: PageData, s: Slot)
    ensures Own(s) in Capture(form, p) && Capture(form, p)[Own(s)] == SlotValue(p, s)
  {
    assert Own(s) in PageEntries(p) && PageEntries(p)[Own(s)] == SlotValue(p, s) by {
      match s
      case DrugTableHtml =>
      case ObsTableHtml =>
      case DoseOutputHtml =>
      case DoseOutputVisible =>
      case TimerDisplay =>
      case SecondsElapsed =>
      case TimerRunning =>
      case StartText =>
      case EndText =>
      case AwakeText =>
    }
  }

  /** `saveState`'s record: the field entries, then the page entries over them. */
  function Capture(form: seq<Field>, p: PageData): Record
  {
    FieldEntries(form) + PageEntries(p)
  }

  /** No two fields that can be saved share a key. */
  predicate KeysDistinct(form: seq<Field>)
  {
    forall i, j :: 0 <= i < j < |form| && Keyed(form[i]) && Keyed(form[j]) ==> SaveKey(form[i]) != SaveKey(form[j])
  }

  /** A key is in the field entries exactly when some saved field has it, and its value
      is that of the last such field. */
  lemma {:induction false} FieldEntriesFrom(form: seq<Field>, k: Key)
    ensures k in FieldEntries(form) <==> exists j :: 0 <= j < |form| && Saved(form[j]) && SaveKey(form[j]) == k
    ensures k in FieldEntries(form) ==>
      exists j :: 0 <= j < |form| && Saved(form[j]) && SaveKey(form[j]) == k && FieldEntries(form)[k] == Entry(form[j])
    decreases |form|
  {
    if form != [] {
      var init := form[..|form| - 1];
      FieldEntriesFrom(init, k);
      assert forall j :: 0 <= j < |init| ==> init[j] == form[j];
      var f := form[|form| - 1];
      if Saved(f) && SaveKey(f) == k {
        assert Saved(form[|form| - 1]) && SaveKey(form[|form| - 1]) == k;
      } else if k in FieldEntries(form) {
        var j :| 0 <= j < |init| && Saved(init[j]) && SaveKey(init[j]) == k && FieldEntries(init)[k] == Entry(init[j]);
        assert Saved(form[j]) && SaveKey(form[j]) == k && FieldEntries(form)[k] == Entry(form[j]);
      } else {
        assert forall j :: 0 <= j < |form| && Saved(form[j]) ==> SaveKey(form[j]) != k by {
          forall j | 0 <= j < |form| && Saved(form[j])
            ensures SaveKey(form[j]) != k
          {
            if j < |init| {
              assert form[j] == init[j];
            }
          }
        }
      }
    }
  }

  /** With distinct keys, every saved field's entry is in the record under its key. */
  lemma {:induction false} FieldEntryOf(form: seq<Field>, i: nat)
    requires KeysDistinct(form) && i < |form| && Saved(form[i])
    ensures SaveKey(form[i]) in FieldEntries(form)
    ensures FieldEntries(form)[SaveKey(form[i])] == Entry(form[i])
    decreases |form|
  {
    var init := form[..|form| - 1];
    var f := form[|form| - 1];
    if i < |form| - 1 {
      assert forall j :: 0 <= j < |init| ==> init[j] == form[j];
      assert init[i] == form[i];
      FieldEntryOf(init, i);
      if Saved(f) {
        assert SaveKey(form[i]) != SaveKey(form[|form| - 1]);
      }
    }
  }

  /** What the record holds under a field key: an entry exactly when some saved field
      owns the key, holding a ticked box's `true` or a text field's value. */
  lemma CaptureFields(form: seq<Field>, p: PageData, k: string)
    ensures Named(k) in Capture(form, p) <==>
      exists j :: 0 <= j < |form| && Saved(form[j]) && SaveKey(form[j]) == Named(k)
    ensures Named(k) in Capture(form, p) ==>
      exists j :: 0 <= j < |form| && Saved(form[j]) && SaveKey(form[j]) == Named(k) &&
        Capture(form, p)[Named(k)] == (if Checkable(form[j]) then Flag(true) else Str(form[j].value))
  {
    FieldEntriesFrom(form, Named(k));
  }

  // ------------------------------------------------------------------ restore

  /** The key a radio is looked up under when the page is loaded. */
  function RadioKey(f: Field): Key
  {
    Named(f.name + ":" + f.value)
  }

  /** `loadState`'s write to one field: a checkbox is ticked when its id holds a truthy
      value, a radio when its `name:value` does, and a text field with an id takes the
      value saved under it. Nothing is ever unticked. */
  function RestoreField(f: Field, data: Record): (r: Field)
    ensures r.kind == f.kind && r.id == f.id && r.name == f.name
    ensures Checkable(f) ==> r.value == f.value && (f.checked ==> r.checked)
    ensures !Checkable(f) ==> r.checked == f.checked
  {
    if f.kind == Checkbox then
      if Admitted(data, Named(f.id)).Some? then f.(checked := true) else f
    else if f.kind == Radio then
      if Admitted(data, RadioKey(f)).Some? then f.(checked := true) else f
    else if f.id != "" && Named(f.id) in data then f.(value := AsText(data[Named(f.id)]))
    else f
  }

  function RestoreFields(form: seq<Field>, data: Record): (r: seq<Field>)
    ensures |r| == |form|
    ensures forall i :: 0 <= i < |r| ==> r[i] == RestoreField(form[i], data)
  {
    seq(|form|, i requires 0 <= i < |form| => RestoreField(form[i], data))
  }

  /** The form as first served: nothing ticked and every text field empty. */
  function Blank(form: seq<Field>): (r: seq<Field>)
    ensures |r| == |form|
    ensures forall i :: 0 <= i < |r| ==>
      r[i].kind == form[i].kind && r[i].id == form[i].id && r[i].name == form[i].name && !r[i].checked
    ensures forall i :: 0 <= i < |r| && Checkable(form[i]) ==> r[i].value == form[i].value
  {
    seq(|form|, i requires 0 <= i < |form| =>
      if Checkable(form[i]) then form[i].(checked := false) else form[i].(checked := false, value := ""))
  }

  /** The value under `k` when it is truthy: what the page's `if (data[k])` admits. */
  function Admitted(data: Record, k: Key): (r: Option<Value>)
    ensures r.Some? <==> k in data && Truthy(data[k])
    ensures r.Some? ==> r.value == data[k]
  {
    if k in data && Truthy(data[k]) then Some(data[k]) else None
  }

  /** A stamp output restored from a non-empty text shows it and disables its button. */
  function RestoreStamp(s: Stamp, data: Record, slot: Slot): (r: Stamp)
    ensures s.latched ==> r.latched
    ensures var k := Own(slot); (k in data && data[k].Str? && data[k].text != "") ==> r == Stamp(data[k].text, true)
  {
    var v := Admitted(data, Own(slot));
    if v.Some? && v.value.Str? then Stamp(v.value.text, true) else s
  }

  function DrugsFrom(data: Record, rows: seq<DrugRow>): seq<DrugRow>
  {
    var v := Admitted(data, Own(DrugTableHtml));
    if v.Some? && v.value.DrugTable? then v.value.drugs else rows
  }

  function ObsFrom(data: Record, rows: seq<ObsRow>): seq<ObsRow>
  {
    var v := Admitted(data, Own(ObsTableHtml));
    if v.Some? && v.value.ObsTable? then v.value.obs else rows
  }

  function AdviceFrom(data: Record, advice: Option<Advice>): Option<Advice>
  {
    var v := Admitted(data, Own(DoseOutputHtml));
    if v.Some? && v.value.DoseHtml? then v.value.advice else advice
  }

  function DisplayFrom(data: Record, display: string): string
  {
    var v := Admitted(data, Own(TimerDisplay));
    if v.Some? && v.value.Str? then v.value.text else display
  }

  function SecondsFrom(data: Record, seconds: int): int
  {
    var v := Admitted(data, Own(SecondsElapsed));
    if v.Some? && v.value.Number? then v.value.n else seconds
  }

  /** `loadState`'s writes to the rest of the page. The running flag is never read back,
      so a reloaded page always has its timer stopped; a zero count is not restored. */
  function RestorePage(p: PageData, data: Record): (r: PageData)
    ensures r.running == p.running
    ensures p.adviceVisible ==> r.adviceVisible
    ensures p.procStart.latched ==> r.procStart.latched
    ensures p.procEnd.latched ==> r.procEnd.latched
    ensures p.awake.latched ==> r.awake.latched
  {
    PageData(
      drugs := DrugsFrom(data, p.drugs),
      obs := ObsFrom(data, p.obs),
      advice := AdviceFrom(data, p.advice),
      adviceVisible := Admitted(data, Own(DoseOutputVisible)).Some? || p.adviceVisible,
      display := DisplayFrom(data, p.display),
      seconds := SecondsFrom(data, p.seconds),
      running := p.running,
      procStart := RestoreStamp(p.procStart, data, StartText),
      procEnd := RestoreStamp(p.procEnd, data, EndText),
      awake := RestoreStamp(p.awake, data, AwakeText))
  }

  // --------------------------------------------------------------- round trips

  /** Saving a form and loading the record onto the blank form gives back every
      checkbox that has an id, every radio that has none, and every text field with
      an id. */
  lemma FieldRoundTrip(form: seq<Field>, p: PageData, i: nat)
    requires KeysDistinct(form) && i < |form|
    ensures var r := RestoreFields(Blank(form), Capture(form, p))[i];
      && (form[i].kind == Checkbox && form[i].id != "" ==> r.checked == form[i].checked)
      && (form[i].kind == Radio && form[i].id == "" ==> r.checked == form[i].checked)
      && (form[i].kind == TextInput && form[i].id != "" ==> r.value == form[i].value)
  {
    var data := Capture(form, p);
    var f := form[i];
    var k := SaveKey(f);
    if Keyed(f) {
      if Saved(f) {
        FieldEntryOf(form, i);
      } else {
        FieldEntriesFrom(form, k);
      }
    }
  }

  /** A checkbox without an id is saved under `name:value` but looked up under its empty
      id, which no record key can be: once the page is reloaded it is never ticked. */
  lemma CheckboxWithoutIdLost(form: seq<Field>, p: PageData, i: nat)
    requires i < |form| && form[i].kind == Checkbox && form[i].id == ""
    ensures IsOn(form[i]) ==> SaveKey(form[i]) in Capture(form, p)
    ensures !RestoreFields(Blank(form), Capture(form, p))[i].checked
  {
    FieldEntriesFrom(form, Named(""));
    FieldEntriesFrom(form, SaveKey(form[i]));
  }

  /** A radio with an id is saved under its id but looked up under `name:value`: when
      nothing else is saved under that pair, a reload leaves it unticked. */
  lemma RadioWithIdLost(form: seq<Field>, p: PageData, i: nat)
    requires KeysDistinct(form)
    requires i < |form| && form[i].kind == Radio && form[i].id != ""
    requires forall j :: 0 <= j < |form| && Saved(form[j]) ==> SaveKey(form[j]) != RadioKey(form[i])
    ensures IsOn(form[i]) ==> Named(form[i].id) in Capture(form, p) && Capture(form, p)[Named(form[i].id)] == Flag(true)
    ensures !RestoreFields(Blank(form), Capture(form, p))[i].checked
  {
    FieldEntriesFrom(form, RadioKey(form[i]));
    if IsOn(form[i]) {
      FieldEntryOf(form, i);
    }
  }

  /** Loading a saved record onto a page: each table, the advice, the display and the
      count come back when they were non-empty or non-zero, the stamps come back latched
      when they held a time, and the running flag is the page's own. */
  lemma PageRoundTrip(form: seq<Field>, p: PageData, q: PageData)
    ensures RestorePage(q, Capture(form, p)) == Reloaded(p, q)
  {
    forall s: Slot
      ensures Own(s) in Capture(form, p) && Capture(form, p)[Own(s)] == SlotValue(p, s)
    {
      CaptureSlot(form, p, s);
    }
    RestoreSlots(p, q, Capture(form, p));
  }

  /** The page `q` after loading the record saved from page `p`, field by field. */
  function Reloaded(p: PageData, q: PageData): PageData
  {
    PageData(
      drugs := if p.drugs != [] then p.drugs else q.drugs,
      obs := if p.obs != [] then SerialisedRows(p.obs) else q.obs,
      advice := if p.advice.Some? then p.advice else q.advice,
      adviceVisible := p.adviceVisible || q.adviceVisible,
      display := if p.display != "" then p.display else q.display,
      seconds := if p.seconds != 0 then p.seconds else q.seconds,
      running := q.running,
      procStart := if p.procStart.text != "" then Stamp(p.procStart.text, true) else q.procStart,
      procEnd := if p.procEnd.text != "" then Stamp(p.procEnd.text, true) else q.procEnd,
      awake := if p.awake.text != "" then Stamp(p.awake.text, true) else q.awake)
  }

  /** The saved record of page `p`, seen from its own keys. */
  predicate SavedFrom(data: Record, p: PageData)
  {
    forall s: Slot :: Own(s) in data && data[Own(s)] == SlotValue(p, s)
  }

  lemma RestoreSlots(p: PageData, q: PageData, data: Record)
    requires SavedFrom(data, p)
    ensures RestorePage(q, data) == Reloaded(p, q)
  {
    RestoreTables(p, q, data);
    RestoreTimer(p, q, data);
    RestoreStamps(p, q, data);
  }

  lemma RestoreTables(p: PageData, q: PageData, data: Record)
    requires SavedFrom(data, p)
    ensures var r, e := RestorePage(q, data), Reloaded(p, q);
      r.drugs == e.drugs && r.obs == e.obs && r.advice == e.advice && r.adviceVisible == e.adviceVisible
  {
    assert data[Own(DrugTableHtml)] == DrugTable(p.drugs);
    assert data[Own(ObsTableHtml)] == ObsTable(SerialisedRows(p.obs));
    assert data[Own(DoseOutputHtml)] == DoseHtml(p.advice);
    assert data[Own(DoseOutputVisible)] == Flag(p.adviceVisible);
  }

  lemma RestoreTimer(p: PageData, q: PageData, data: Record)
    requires SavedFrom(data, p)
    ensures var r, e := RestorePage(q, data), Reloaded(p, q);
      r.display == e.display && r.seconds == e.seconds && r.running == e.running
  {
    assert data[Own(TimerDisplay)] == Str(p.display);
    assert data[Own(SecondsElapsed)] == Number(p.seconds);
  }

  lemma RestoreStamps(p: PageData, q: PageData, data: Record)
    requires SavedFrom(data, p)
    ensures var r, e := RestorePage(q, data), Reloaded(p, q);
      r.procStart == e.procStart && r.procEnd == e.procEnd && r.awake == e.awake
  {
    assert data[Own(StartText)] == Str(p.procStart.text);
    assert data[Own(EndText)] == Str(p.procEnd.text);
    assert data[Own(AwakeText)] == Str(p.awake.text);
  }

  /** Each stamp button is disabled exactly when its output holds a time. */
  predicate StampsConsistent(p: PageData)
  {
    (p.procStart.latched <==> p.procStart.text != "")
    && (p.procEnd.latched <==> p.procEnd.text != "")
    && (p.awake.latched <==> p.awake.text != "")
  }

  /** A reload of a page with a consistent state brings everything back except the
      vitals typed into the observation rows, and leaves the timer stopped. */
  lemma FreshReload(form: seq<Field>, p: PageData)
    requires StampsConsistent(p) && p.display != ""
    ensures RestorePage(FreshPage(), Capture(form, p)) == p.(obs := SerialisedRows(p.obs), running := false)
  {
    PageRoundTrip(form, p, FreshPage());
    assert SerialisedRows([]) == [];
  }
}
