// The data of the discharge letter (`showDischargeLetter`): the patient and
// procedure with their placeholders, the distinct drugs given, the advice
// lines chosen by drug class, and the 24-hour window that starts at the end
// of sedation. Dates are modelled as a day number and a minute of the day;
// how the browser formats them is not part of the model.
module Letter {
  import opened Text
  import opened Form
  import opened Ledger

  /** A local wall-clock moment: a day number and the minute of that day. */
  datatype Moment = Moment(day: int, minute: int)

  predicate ValidMoment(m: Moment)
  {
    0 <= m.minute < 1440
  }

  /** The advice lines the letter can list, in the order it lists them. */
  datatype Effect = Drowsy | Amnesia | VividDreams | OpioidNausea | PlainNausea | CannulaSite

  /** The letter's fields: `None` for a time stands for an invalid date. */
  datatype LetterData = LetterData(
    patient: string, procedure: string, drugs: string, effects: seq<Effect>,
    start: Option<Moment>, expiry: Option<Moment>)

  /** The blank line printed when no patient name was entered. */
  const BlankName := "______________________"

  // ------------------------------------------------------------------ drugs

  /** The drug table's trimmed names, each once, in order of first occurrence. */
  function DrugNames(rows: seq<DrugRow>): seq<string>
  {
    Distinct(Names(rows))
  }

  /** The names joined by " & ", or "Sedation" when the table is empty. */
  function DrugsText(names: seq<string>): string
  {
    if |names| > 0 then Join(names, " & ") else "Sedation"
  }

  /** The drugs line names exactly the distinct drugs of the table, in the order they were
      first given, and falls back to "Sedation" only for an empty table. */
  lemma DrugsLine(rows: seq<DrugRow>)
    ensures rows == [] ==> DrugsText(DrugNames(rows)) == "Sedation"
    ensures rows != [] ==> DrugNames(rows) != [] && DrugsText(DrugNames(rows)) == Join(DrugNames(rows), " & ")
    ensures forall x :: x in DrugNames(rows) <==> exists i :: 0 <= i < |rows| && Trim(rows[i].name) == x
    ensures forall i, j :: 0 <= i < j < |DrugNames(rows)| ==> DrugNames(rows)[i] != DrugNames(rows)[j]
  {
    if rows != [] {
      assert Names(rows)[0] in DrugNames(rows);
    }
    forall x
      ensures x in DrugNames(rows) <==> exists i :: 0 <= i < |rows| && Trim(rows[i].name) == x
    {
      if x in Names(rows) {
        var i :| 0 <= i < |rows| && Names(rows)[i] == x;
      }
    }
  }

  /** `names.some(p)`. */
  function AnyName(names: seq<string>, p: string -> bool): (r: bool)
    ensures r <==> exists i :: 0 <= i < |names| && p(names[i])
    decreases |names|
  {
    if names == [] then false
    else if p(names[0]) then true
    else
      var r := AnyName(names[1..], p);
      assert forall i :: 1 <= i < |names| ==> names[i] == names[1..][i - 1];
      r
  }

  predicate IsKetamine(name: string)
  {
    Contains(Lower(name), "ketamine")
  }

  predicate IsOpioid(name: string)
  {
    Contains(Lower(name), "fentanyl") || Contains(Lower(name), "morphine")
  }

  /** The advice lines, given whether a ketamine and whether an opioid is among the drugs. */
  function EffectList(ketamine: bool, opioid: bool): seq<Effect>
  {
    [Drowsy, Amnesia] + (if ketamine then [VividDreams] else [])
    + (if opioid then [OpioidNausea] else [PlainNausea]) + [CannulaSite]
  }

  /** The advice lines for the drugs given. */
  function Effects(names: seq<string>): seq<Effect>
  {
    EffectList(AnyName(names, IsKetamine), AnyName(names, IsOpioid))
  }

  lemma EffectListMembers(ketamine: bool, opioid: bool)
    ensures var e := EffectList(ketamine, opioid);
      && e[0] == Drowsy && e[1] == Amnesia && e[|e| - 1] == CannulaSite
      && (VividDreams in e <==> ketamine)
      && (OpioidNausea in e <==> opioid)
      && (PlainNausea in e <==> !opioid)
  {
  }

  /** Some drug of the table, as its name cell reads once trimmed, satisfies `p`. */
  predicate Given(rows: seq<DrugRow>, p: string -> bool)
  {
    exists i :: 0 <= i < |rows| && p(Trim(rows[i].name))
  }

  lemma GivenNames(rows: seq<DrugRow>, p: string -> bool)
    ensures AnyName(DrugNames(rows), p) <==> Given(rows, p)
  {
    DrugsLine(rows);
    if Given(rows, p) {
      var i :| 0 <= i < |rows| && p(Trim(rows[i].name));
      assert Trim(rows[i].name) in DrugNames(rows);
    }
    if AnyName(DrugNames(rows), p) {
      var k :| 0 <= k < |DrugNames(rows)| && p(DrugNames(rows)[k]);
      assert DrugNames(rows)[k] in DrugNames(rows);
    }
  }

  /** The letter always opens with the drowsiness and amnesia lines and closes with the
      cannula line; the vivid-dreams line appears exactly when a ketamine was given; of the
      two nausea lines exactly one appears, the opioid one exactly when fentanyl or morphine
      was given. */
  lemma EffectLines(rows: seq<DrugRow>)
    ensures var e := Effects(DrugNames(rows));
      && e[0] == Drowsy && e[1] == Amnesia && e[|e| - 1] == CannulaSite
      && (VividDreams in e <==> Given(rows, IsKetamine))
      && (OpioidNausea in e <==> Given(rows, IsOpioid))
      && (PlainNausea in e <==> !Given(rows, IsOpioid))
  {
    GivenNames(rows, IsKetamine);
    GivenNames(rows, IsOpioid);
    EffectListMembers(AnyName(DrugNames(rows), IsKetamine), AnyName(DrugNames(rows), IsOpioid));
  }

  // ------------------------------------------------------------------- time

  /** `parseInt(s)`: leading white space skipped, an optional sign, then the decimal
      digits that follow; `None` stands for NaN. */
  function ParseInt(s: string): (r: Option<int>)
    ensures (forall i :: 0 <= i < |s| ==> !IsDigit(s[i])) ==> r.None?
  {
    TrimStartSuffix(s);
    var t := TrimStart(s);
    var signed := t != "" && (t[0] == '-' || t[0] == '+');
    var u := if signed then t[1..] else t;
    var n := DigitRun(u);
    if n == 0 then None
    else if signed && t[0] == '-' then Some(-DigitsValue(u[..n]))
    else Some(DigitsValue(u[..n]))
  }

  /** Reading back a rendered number gives the number. */
  lemma ParseIntNat(n: nat)
    ensures ParseInt(NatToString(n)) == Some(n)
  {
    var s := NatToString(n);
    NatToStringRoundTrip(n);
    assert TrimStart(s) == s;
    assert s[..|s|] == s;
  }

  /** The time the letter counts from: the procedure-end stamp, else the sign-off time,
      else the current time, a blank or all-space text counting as missing. */
  function SedationTime(procEnd: string, signoffTime: string, clock: string): string
  {
    if Trim(procEnd) != "" then procEnd
    else if Trim(signoffTime) != "" then signoffTime
    else clock
  }

  /** `setHours(h, m, 0, 0)` on day `today`: the moment `h` hours and `m` minutes after
      that day's midnight, carried into an earlier or later day when out of range. */
  function SetClock(today: int, h: int, m: int): (r: Moment)
    ensures ValidMoment(r)
    ensures r.day * 1440 + r.minute == today * 1440 + h * 60 + m
  {
    var total := h * 60 + m;
    Moment(today + total / 1440, total % 1440)
  }

  /** Today with the clock set to `time` when it splits into two parts at ':' (an
      unreadable part makes the date invalid); otherwise the current moment. */
  function BaseMoment(time: string, now: Moment): (r: Option<Moment>)
  {
    var parts := Split(time, ':');
    if |parts| != 2 then Some(now)
    else
      var h, m := ParseInt(parts[0]), ParseInt(parts[1]);
      if h.Some? && m.Some? then Some(SetClock(now.day, h.value, m.value)) else None
  }

  /** Twenty-four hours later: the same minute of the next day. */
  function Expiry(base: Option<Moment>): (r: Option<Moment>)
    ensures r.Some? <==> base.Some?
    ensures base.Some? ==> r.value.day == base.value.day + 1 && r.value.minute == base.value.minute
  {
    match base
    case None => None
    case Some(b) => Some(Moment(b.day + 1, b.minute))
  }

  /** A stamp "HH:MM" sets today's clock to that time; the letter is valid until the same
      time tomorrow. */
  lemma StampedTime(h: nat, m: nat, now: Moment)
    requires h < 24 && m < 60
    ensures BaseMoment(Pad2(h) + ":" + Pad2(m), now) == Some(Moment(now.day, h * 60 + m))
    ensures Expiry(BaseMoment(Pad2(h) + ":" + Pad2(m), now)) == Some(Moment(now.day + 1, h * 60 + m))
  {
    StampMoment(h, m, now);
    SetClockSameDay(now.day, h, m);
  }

  lemma StampMoment(h: nat, m: nat, now: Moment)
    requires h < 24 && m < 60
    ensures BaseMoment(Pad2(h) + ":" + Pad2(m), now) == Some(SetClock(now.day, h, m))
  {
    StampParts(h, m);
  }

  /** A time of day within the day stays on the same day. */
  lemma SetClockSameDay(today: int, h: int, m: int)
    requires 0 <= h * 60 + m < 1440
    ensures SetClock(today, h, m) == Moment(today, h * 60 + m)
  {
    var r := SetClock(today, h, m);
    assert r.day == today;
  }

  lemma StampParts(h: nat, m: nat)
    requires h < 24 && m < 60
    ensures var parts := Split(Pad2(h) + ":" + Pad2(m), ':');
      |parts| == 2 && ParseInt(parts[0]) == Some(h) && ParseInt(parts[1]) == Some(m)
  {
    SplitStamp(Pad2(h), Pad2(m));
    ParseTwoDigits(h);
    ParseTwoDigits(m);
  }

  lemma SplitStamp(a: string, b: string)
    requires ':' !in a && ':' !in b
    ensures Split(a + ":" + b, ':') == [a, b]
  {
    SplitAt(a, b, ':');
    SplitWhole(b, ':');
    assert a + ":" + b == a + [':'] + b;
  }

  lemma ParseTwoDigits(n: nat)
    requires n < 100
    ensures ParseInt(Pad2(n)) == Some(n)
  {
    var s := Pad2(n);
    Pad2Value(n);
    assert TrimStart(s) == s;
    assert DigitRun(s) == 2 by {
      assert s[1..][1..] == "";
    }
    assert s[..2] == s;
  }

  // ----------------------------------------------------------------- letter

  /** The letter for the form and drug table; `procEnd` is the procedure-end stamp's text,
      `clock` the current time as the browser prints it and `now` the current moment. */
  function LetterOf(form: seq<Field>, rows: seq<DrugRow>, procEnd: string, clock: string, now: Moment): (l: LetterData)
    ensures l.expiry == Expiry(l.start)
  {
    var base := BaseMoment(SedationTime(procEnd, Val(form, "signoff-time"), clock), now);
    LetterData(
      patient := OrElse(Val(form, "patient-name"), BlankName),
      procedure := OrElse(Val(form, "procedure"), "Procedure"),
      drugs := DrugsText(DrugNames(rows)),
      effects := Effects(DrugNames(rows)),
      start := base,
      expiry := Expiry(base))
  }

  /** The placeholders: a blank line of 22 underscores for a missing patient name and
      "Procedure" for a missing procedure; entered text is printed as it is. */
  lemma LetterPlaceholders(form: seq<Field>, rows: seq<DrugRow>, procEnd: string, clock: string, now: Moment)
    ensures var l := LetterOf(form, rows, procEnd, clock, now);
      && (Val(form, "patient-name") == "" ==> l.patient == BlankName && |l.patient| == 22)
      && (Val(form, "patient-name") != "" ==> l.patient == Val(form, "patient-name"))
      && (Val(form, "procedure") == "" ==> l.procedure == "Procedure")
      && (Val(form, "procedure") != "" ==> l.procedure == Val(form, "procedure"))
  {
  }

  /** When the procedure-end stamp holds a time, the letter's window runs from that time
      today until the same time tomorrow, whatever the sign-off time says. */
  lemma WindowFromProcedureEnd(form: seq<Field>, rows: seq<DrugRow>, h: nat, m: nat, clock: string, now: Moment)
    requires h < 24 && m < 60
    ensures var l := LetterOf(form, rows, Pad2(h) + ":" + Pad2(m), clock, now);
      l.start == Some(Moment(now.day, h * 60 + m)) && l.expiry == Some(Moment(now.day + 1, h * 60 + m))
  {
    var s := Pad2(h) + ":" + Pad2(m);
    assert s[0] == Pad2(h)[0] && !IsWhitespace(s[0]);
    assert Trim(s) != "" by {
      TrimSlice(s);
    }
    StampedTime(h, m, now);
  }
}
