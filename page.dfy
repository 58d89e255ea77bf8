// The page itself: the state the script keeps in the DOM and in its closure
// (the form elements, the two tables, the dose panel, the timer and its
// display, the three stamp outputs, the panels the alerts toggle, the stored
// record and the log), and the handlers that change it. Each handler is
// specified by the pure functions of the other modules. The wall clock (as
// the `HH:MM` text the page would print), today's date and the number
// formatting of the log are supplied from outside; a modal prompt's answer is
// an `Option`, `None` standing for Cancel.
module Page {
  import opened Text
  import opened Form
  import opened Ledger
  import opened DoseAdvisor
  import opened EprLog
  import opened Timer
  import opened Snapshot

  /** The three one-shot buttons. */
  datatype StampId = ProcedureStart | ProcedureEnd | PatientAwake

  /** All four safety time-out boxes are ticked. */
  predicate TimeOutDone(form: seq<Field>)
  {
    IsChecked(form, "to-identity") && IsChecked(form, "to-role")
    && IsChecked(form, "to-site") && IsChecked(form, "to-monitoring")
  }

  /** The row the drug buttons append, if any: the button's drug, or for "Other" the name
      typed into the prompt; then the dose typed into the second prompt. Cancelling or
      leaving either answer empty adds nothing. */
  function DrugEntry(button: string, otherName: Option<string>, dose: Option<string>,
                     clock: string, form: seq<Field>): (r: Option<DrugRow>)
    ensures r.Some? <==>
      (button == "Other" ==> otherName.Some? && otherName.value != "") && button != ""
      && dose.Some? && dose.value != ""
    ensures r.Some? ==>
      && r.value.time == clock && r.value.dose == dose.value
      && r.value.name == (if button == "Other" then otherName.value else button)
      && r.value.recordedBy == Val(form, "sedationist")
  {
    var drug := if button == "Other" then otherName else Some(button);
    if drug.None? || drug.value == "" then None
    else if dose.None? || dose.value == "" then None
    else Some(DrugRow(clock, drug.value, dose.value, Val(form, "sedationist")))
  }

  class FormPage {
    const fields: array<Field>
    var drugs: seq<DrugRow>
    var obs: seq<ObsRow>
    var advice: Option<Advice>
    var adviceVisible: bool
    var timer: TimerState
    var display: string
    var procStart: Stamp
    var procEnd: Stamp
    var awake: Stamp
    var capacity: CapacityPanels
    var asaAlert: bool
    var store: Option<Record>
    var logSource: Option<LogInput>
    const date: string
    const show: real -> string

    /** What the stored record keeps besides the fields. */
    function Data(): PageData
      reads this
    {
      PageData(drugs, obs, advice, adviceVisible, display, timer.seconds, timer.running, procStart, procEnd, awake)
    }

    /** What the log is composed from. */
    function Input(): LogInput
      reads this, fields
    {
      LogInput(fields[..], drugs, obs, procStart.text, procEnd.text, awake.text, date)
    }

    /** The log element's text: the record composed from `logSource`, empty before the
        first composition. */
    function Log(): string
      reads this
    {
      match logSource
      case None => ""
      case Some(input) => EprLog.EprLog(input, show)
    }

    function StampOf(which: StampId): Stamp
      reads this
    {
      match which
      case ProcedureStart => procStart
      case ProcedureEnd => procEnd
      case PatientAwake => awake
    }

    /** The page as served, over the given elements and stored record. */
    constructor(fields: array<Field>, store: Option<Record>, date: string, show: real -> string)
      ensures this.fields == fields && this.store == store && this.date == date && this.show == show
      ensures Data() == FreshPage() && !timer.reminder && logSource == None
    {
      this.fields := fields;
      drugs, obs := [], [];
      advice, adviceVisible := None, false;
      timer := TimerState(0, false, false);
      display := "00:00:00";
      procStart, procEnd, awake := Stamp("", false), Stamp("", false), Stamp("", false);
      capacity := CapacityPanels(true, false);
      asaAlert := false;
      this.store := store;
      logSource := None;
      this.date := date;
      this.show := show;
    }

    /** `generateEPRLog`: the log is recomposed from the current page. */
    method GenerateLog()
      modifies this
      ensures logSource == Some(Input())
      ensures Data() == old(Data()) && timer == old(timer) && store == old(store)
      ensures capacity == old(capacity) && asaAlert == old(asaAlert)
    {
      logSource := Some(Input());
    }

    /** `saveState`: the record of the fields and the page is stored, and the log recomposed. */
    method SaveState()
      modifies this
      ensures store == Some(Capture(fields[..], Data()))
      ensures logSource == Some(Input())
      ensures Data() == old(Data()) && timer == old(timer)
      ensures capacity == old(capacity) && asaAlert == old(asaAlert)
    {
      var data: Record := map[];
      var i := 0;
      while i < fields.Length
        invariant 0 <= i <= fields.Length
        invariant data == FieldEntries(fields[..i])
      {
        var f := fields[i];
        if f.kind == Checkbox || f.kind == Radio {
          if f.checked {
            data := data[SaveKey(f) := Flag(true)];
          }
        } else if f.id != "" {
          data := data[Named(f.id) := Str(f.value)];
        }
        assert fields[..i + 1][..i] == fields[..i];
        i := i + 1;
      }
      assert fields[..fields.Length] == fields[..];
      store := Some(data + PageEntries(Data()));
      GenerateLog();
    }

    /** `findCheckedRadio` behind `toggleCapacity`: the panels follow the capacity radios. */
    method ToggleCapacity()
      modifies this
      ensures capacity == Capacity(fields[..])
      ensures logSource == Some(Input())
      ensures Data() == old(Data()) && timer == old(timer) && store == old(store) && asaAlert == old(asaAlert)
    {
      var cap := FindCheckedRadio(fields, "capacity");
      capacity := CapacityPanels(cap != "No", cap == "No");
      GenerateLog();
    }

    /** `checkAsaAlert`: the alert follows the ASA grade radios. */
    method CheckAsaAlert()
      modifies this
      ensures asaAlert == AsaAlertShown(fields[..])
      ensures logSource == Some(Input())
      ensures Data() == old(Data()) && timer == old(timer) && store == old(store) && capacity == old(capacity)
    {
      var grade := FindCheckedRadio(fields, "asa-grade");
      asaAlert := grade == "III" || grade == "IV" || grade == "V";
      GenerateLog();
    }

    /** `loadState`: with no stored record only the log is composed; otherwise the record
        is written back onto the fields and the page, the panels and alert follow the
        restored radios, and the log is recomposed. The timer is never set running. */
    method LoadState()
      modifies this, fields
      ensures store == old(store) && timer.running == old(timer.running) && timer.reminder == old(timer.reminder)
      ensures old(store).None? ==>
        && fields[..] == old(fields[..]) && Data() == old(Data())
        && capacity == old(capacity) && asaAlert == old(asaAlert)
      ensures old(store).Some? ==>
        && fields[..] == RestoreFields(old(fields[..]), old(store).value)
        && Data() == RestorePage(old(Data()), old(store).value)
        && capacity == Capacity(fields[..]) && asaAlert == AsaAlertShown(fields[..])
      ensures logSource == Some(Input())
    {
      if store.None? {
        GenerateLog();
        return;
      }
      var data := store.value;
      var i := 0;
      while i < fields.Length
        modifies fields
        invariant 0 <= i <= fields.Length
        invariant forall j :: 0 <= j < i ==> fields[j] == RestoreField(old(fields[j]), data)
        invariant forall j :: i <= j < fields.Length ==> fields[j] == old(fields[j])
      {
        var f := fields[i];
        if f.kind == Checkbox {
          if Named(f.id) in data && Truthy(data[Named(f.id)]) {
            fields[i] := f.(checked := true);
          }
        } else if f.kind == Radio {
          if RadioKey(f) in data && Truthy(data[RadioKey(f)]) {
            fields[i] := f.(checked := true);
          }
        } else if f.id != "" && Named(f.id) in data {
          fields[i] := f.(value := AsText(data[Named(f.id)]));
        }
        i := i + 1;
      }
      assert fields[..] == RestoreFields(old(fields[..]), data);
      ghost var before := old(Data());
      RestoreRest(data);
      assert Data() == RestorePage(before, data);
      ToggleCapacity();
      CheckAsaAlert();
      GenerateLog();
    }

    /** The part of `loadState` after the field loop that writes the page's own state. */
    method RestoreRest(data: Record)
      modifies this
      ensures Data() == RestorePage(old(Data()), data)
      ensures timer.running == old(timer.running) && timer.reminder == old(timer.reminder)
      ensures store == old(store) && logSource == old(logSource)
      ensures capacity == old(capacity) && asaAlert == old(asaAlert)
    {
      RestoreTables(data);
      RestoreTimer(data);
      RestoreStamps(data);
    }

    /** The two tables and the dose panel. */
    method RestoreTables(data: Record)
      modifies this
      ensures drugs == DrugsFrom(data, old(drugs)) && obs == ObsFrom(data, old(obs))
      ensures advice == AdviceFrom(data, old(advice))
      ensures adviceVisible == (Admitted(data, Own(DoseOutputVisible)).Some? || old(adviceVisible))
      ensures timer == old(timer) && display == old(display)
      ensures procStart == old(procStart) && procEnd == old(procEnd) && awake == old(awake)
      ensures store == old(store) && logSource == old(logSource)
      ensures capacity == old(capacity) && asaAlert == old(asaAlert)
    {
      var v := Admitted(data, Own(DrugTableHtml));
      if v.Some? && v.value.DrugTable? {
        drugs := v.value.drugs;
      }
      v := Admitted(data, Own(ObsTableHtml));
      if v.Some? && v.value.ObsTable? {
        obs := v.value.obs;
      }
      v := Admitted(data, Own(DoseOutputHtml));
      if v.Some? && v.value.DoseHtml? {
        advice := v.value.advice;
      }
      if Admitted(data, Own(DoseOutputVisible)).Some? {
        adviceVisible := true;
      }
    }

    /** The timer display and count. */
    method RestoreTimer(data: Record)
      modifies this
      ensures display == DisplayFrom(data, old(display))
      ensures timer == old(timer).(seconds := SecondsFrom(data, old(timer).seconds))
      ensures drugs == old(drugs) && obs == old(obs)
      ensures advice == old(advice) && adviceVisible == old(adviceVisible)
      ensures procStart == old(procStart) && procEnd == old(procEnd) && awake == old(awake)
      ensures store == old(store) && logSource == old(logSource)
      ensures capacity == old(capacity) && asaAlert == old(asaAlert)
    {
      var v := Admitted(data, Own(TimerDisplay));
      if v.Some? && v.value.Str? {
        display := v.value.text;
      }
      v := Admitted(data, Own(SecondsElapsed));
      if v.Some? && v.value.Number? {
        timer := timer.(seconds := v.value.n);
      }
    }

    /** The three stamp outputs, each disabling its button when it gets a time. */
    method RestoreStamps(data: Record)
      modifies this
      ensures procStart == RestoreStamp(old(procStart), data, StartText)
      ensures procEnd == RestoreStamp(old(procEnd), data, EndText)
      ensures awake == RestoreStamp(old(awake), data, AwakeText)
      ensures drugs == old(drugs) && obs == old(obs) && timer == old(timer)
      ensures advice == old(advice) && adviceVisible == old(adviceVisible) && display == old(display)
      ensures store == old(store) && logSource == old(logSource)
      ensures capacity == old(capacity) && asaAlert == old(asaAlert)
    {
      var v := Admitted(data, Own(StartText));
      if v.Some? && v.value.Str? {
        procStart := Stamp(v.value.text, true);
      }
      v := Admitted(data, Own(EndText));
      if v.Some? && v.value.Str? {
        procEnd := Stamp(v.value.text, true);
      }
      v := Admitted(data, Own(AwakeText));
      if v.Some? && v.value.Str? {
        awake := Stamp(v.value.text, true);
      }
    }

    /** One firing of the interval: the count and reminder advance and the display shows
        the new count. Nothing is saved. */
    method Tick()
      requires timer.running
      modifies this
      ensures timer == Timer.Tick(old(timer)) && display == ClockText(timer.seconds)
      ensures drugs == old(drugs) && obs == old(obs) && store == old(store) && logSource == old(logSource)
      ensures procStart == old(procStart) && procEnd == old(procEnd) && awake == old(awake)
      ensures advice == old(advice) && adviceVisible == old(adviceVisible)
      ensures capacity == old(capacity) && asaAlert == old(asaAlert)
    {
      var s := timer.seconds + 1;
      display := ClockText(s);
      timer := TimerState(s, true, timer.reminder || s % 300 == 0);
    }

    /** The reminder's dismiss button. */
    method DismissReminder()
      modifies this
      ensures timer == Timer.Dismiss(old(timer))
      ensures Data() == old(Data()) && store == old(store) && logSource == old(logSource)
      ensures capacity == old(capacity) && asaAlert == old(asaAlert)
    {
      timer := timer.(reminder := false);
    }

    /** `addObsRow`: a row labelled with the elapsed time and the clock is appended and
        the page saved. */
    method AddObsRow(clock: string)
      modifies this
      ensures obs == old(obs) + [NewObsRow(old(timer).seconds, clock)]
      ensures timer == old(timer) && drugs == old(drugs) && display == old(display)
      ensures advice == old(advice) && adviceVisible == old(adviceVisible)
      ensures procStart == old(procStart) && procEnd == old(procEnd) && awake == old(awake)
      ensures capacity == old(capacity) && asaAlert == old(asaAlert)
      ensures store == Some(Capture(fields[..], Data())) && logSource == Some(Input())
    {
      obs := obs + [NewObsRow(timer.seconds, clock)];
      SaveState();
    }

    /** `startTimer`: seeds an observation row when no second has been counted, saves the
        page while the timer is still stopped, then sets it running. */
    method StartTimer(clock: string)
      requires !timer.running
      modifies this
      ensures timer == Timer.Start(old(timer))
      ensures obs == old(obs) + (if SeedsObsRow(old(timer)) then [NewObsRow(0, clock)] else [])
      ensures drugs == old(drugs) && display == old(display)
      ensures advice == old(advice) && adviceVisible == old(adviceVisible)
      ensures procStart == old(procStart) && procEnd == old(procEnd) && awake == old(awake)
      ensures capacity == old(capacity) && asaAlert == old(asaAlert)
      ensures store == Some(Capture(fields[..], Data().(running := false)))
      ensures logSource == Some(Input())
    {
      if timer.seconds == 0 {
        AddObsRow(clock);
      }
      SaveState();
      timer := timer.(running := true);
    }

    /** `stopTimer`: the interval cleared, the reminder hidden, the page saved. */
    method StopTimer()
      modifies this
      ensures timer == Timer.Stop(old(timer))
      ensures drugs == old(drugs) && obs == old(obs) && display == old(display)
      ensures advice == old(advice) && adviceVisible == old(adviceVisible)
      ensures procStart == old(procStart) && procEnd == old(procEnd) && awake == old(awake)
      ensures capacity == old(capacity) && asaAlert == old(asaAlert)
      ensures store == Some(Capture(fields[..], Data())) && logSource == Some(Input())
    {
      timer := TimerState(timer.seconds, false, false);
      SaveState();
    }

    /** The timer button: stops a running timer; starts a stopped one when the four
        time-out boxes are ticked or the user accepts the warning; otherwise does nothing. */
    method PressTimerButton(confirmed: bool, clock: string)
      modifies this
      ensures var a := Timer.TimerButton(old(timer), TimeOutDone(fields[..]), confirmed);
        && (a.StopTimer? ==>
              timer == Timer.Stop(old(timer)) && obs == old(obs)
              && store == Some(Capture(fields[..], Data())) && logSource == Some(Input()))
        && (a.StartTimer? ==>
              timer == Timer.Start(old(timer))
              && obs == old(obs) + (if SeedsObsRow(old(timer)) then [NewObsRow(0, clock)] else [])
              && store == Some(Capture(fields[..], Data().(running := false))) && logSource == Some(Input()))
        && (a.Refuse? ==> timer == old(timer) && obs == old(obs) && store == old(store) && logSource == old(logSource))
      ensures drugs == old(drugs) && display == old(display)
      ensures advice == old(advice) && adviceVisible == old(adviceVisible)
      ensures procStart == old(procStart) && procEnd == old(procEnd) && awake == old(awake)
      ensures capacity == old(capacity) && asaAlert == old(asaAlert)
    {
      if timer.running {
        StopTimer();
      } else {
        var safetyChecks := IsChecked(fields[..], "to-identity") && IsChecked(fields[..], "to-role")
          && IsChecked(fields[..], "to-site") && IsChecked(fields[..], "to-monitoring");
        if !safetyChecks && !confirmed {
          return;
        }
        StartTimer(clock);
      }
    }

    /** A one-shot button: the first press shows the clock time, disables the button and
        saves; a disabled button does nothing. */
    method PressStamp(which: StampId, clock: string)
      modifies this
      ensures old(StampOf(which)).latched ==>
        Data() == old(Data()) && store == old(store) && logSource == old(logSource)
      ensures !old(StampOf(which)).latched ==>
        && StampOf(which) == Stamp(clock, true)
        && (forall other :: other != which ==> StampOf(other) == old(StampOf(other)))
        && store == Some(Capture(fields[..], Data())) && logSource == Some(Input())
      ensures drugs == old(drugs) && obs == old(obs) && timer == old(timer) && display == old(display)
      ensures advice == old(advice) && adviceVisible == old(adviceVisible)
      ensures capacity == old(capacity) && asaAlert == old(asaAlert)
    {
      match which {
        case ProcedureStart =>
          if procStart.latched {
            return;
          }
          procStart := Stamp(clock, true);
        case ProcedureEnd =>
          if procEnd.latched {
            return;
          }
          procEnd := Stamp(clock, true);
        case PatientAwake =>
          if awake.latched {
            return;
          }
          awake := Stamp(clock, true);
      }
      SaveState();
    }

    /** A drug button: appends the row `DrugEntry` gives, if any, and saves. */
    method AddDrug(button: string, otherName: Option<string>, dose: Option<string>, clock: string)
      modifies this
      ensures var e := DrugEntry(button, otherName, dose, clock, fields[..]);
        && (e.None? ==> Data() == old(Data()) && store == old(store) && logSource == old(logSource))
        && (e.Some? ==>
              drugs == old(drugs) + [e.value]
              && store == Some(Capture(fields[..], Data())) && logSource == Some(Input()))
      ensures obs == old(obs) && timer == old(timer) && display == old(display)
      ensures advice == old(advice) && adviceVisible == old(adviceVisible)
      ensures procStart == old(procStart) && procEnd == old(procEnd) && awake == old(awake)
      ensures capacity == old(capacity) && asaAlert == old(asaAlert)
    {
      var drug := button;
      if button == "Other" {
        if otherName.None? {
          return;
        }
        drug := otherName.value;
      }
      if drug == "" {
        return;
      }
      if dose.None? || dose.value == "" {
        return;
      }
      drugs := drugs + [DrugRow(clock, drug, dose.value, Val(fields[..], "sedationist"))];
      SaveState();
    }

    /** The calculate button: with a usable weight the advice is shown and the page saved;
        otherwise nothing changes (the page only alerts). */
    method CalculateDoses()
      modifies this
      ensures var a := DoseAdvisor.CalculateDoses(fields[..]);
        && (a.None? ==> Data() == old(Data()) && store == old(store) && logSource == old(logSource))
        && (a.Some? ==>
              advice == a && adviceVisible
              && store == Some(Capture(fields[..], Data())) && logSource == Some(Input()))
      ensures drugs == old(drugs) && obs == old(obs) && timer == old(timer) && display == old(display)
      ensures procStart == old(procStart) && procEnd == old(procEnd) && awake == old(awake)
      ensures capacity == old(capacity) && asaAlert == old(asaAlert)
    {
      var a := DoseAdvisor.CalculateDoses(fields[..]);
      if a.None? {
        return;
      }
      advice := a;
      adviceVisible := true;
      SaveState();
    }
  }
}
