// The clinical log composer (`generateEPRLog`): a pure function of the form,
// the two row tables and the three procedure stamps, producing the rich-text
// record. The record is described in two layers: the layout, the sequence of
// lines the composer prints in order (which optional lines appear, one line
// per drug row, one per observation row with a vital), and the text of each
// line. The record is the concatenation of the texts of its layout.
module EprLog {
  import opened Text
  import opened Form
  import opened Ledger

  /** One line of the record; drug and observation lines carry their row's index. */
  datatype Kind =
    | Summary | Title | Rule | Heading(section: nat)
    | ProcedureLine | IndicationLine | SeniorAware | SedationistLine | StaffLine | WeightLine
    | FrailNote | AllergiesLine | PreAnalgesiaLine | FastingLine
    | AirwayLine | AsaLine | ContraindicationsLine | CapacityLine | RisksLine | ConsentLine
    | ConsentNotesLine
    | TargetLine | PreVitalsLine | SoapMeLine | AagbiLine | TimeOutLine
    | StampsLine | DrugsHeader | DrugLine(row: nat) | NoDrugs | ObsHeader | ObsLine(row: nat)
    | Complications | Notes | Spacer
    | OutcomeLine | DisposalLine | DischargeChecksLine | InstructionsLine | SignOffLine

  /** Everything the composer reads: the form, the two tables, the text of the
      three stamp outputs, and today's date as the locale prints it. */
  datatype LogInput = LogInput(
    form: seq<Field>, drugs: seq<DrugRow>, obs: seq<ObsRow>,
    procStart: string, procEnd: string, awake: string, date: string)

  /** The text of every line that depends on the form alone, each composed once. */
  datatype FormLines = FormLines(
    summaryLead: string, procedure: string, indication: string, sedationist: string, staff: string,
    weight: string, allergies: string, preAnalgesia: string, fasting: string,
    airway: string, asa: string, contraindications: string, capacity: string, risks: string,
    consent: string, consentNotes: string,
    target: string, preVitals: string, soapMe: string, timeOut: string,
    complications: string, notes: string,
    outcome: string, disposal: string, dischargeChecks: string, instructions: string, signOff: string)

  function Opt(c: bool, k: Kind): seq<Kind>
  {
    if c then [k] else []
  }

  // -------------------------------------------------------------- checklists

  /** A checkbox of a checklist and the words the record uses for it. */
  datatype Item = Item(id: string, words: string)

  /** The words of the ticked items, in checklist order. */
  function Ticked(form: seq<Field>, items: seq<Item>): seq<string>
    decreases |items|
  {
    if items == [] then []
    else (if IsChecked(form, items[0].id) then [items[0].words] else []) + Ticked(form, items[1..])
  }

  /** Some box of the checklist is ticked. */
  predicate AnyTicked(form: seq<Field>, items: seq<Item>)
  {
    exists i :: 0 <= i < |items| && IsChecked(form, items[i].id)
  }

  /** A checklist's line is empty exactly when no box of it is ticked. */
  lemma {:induction false} TickedEmpty(form: seq<Field>, items: seq<Item>)
    ensures Ticked(form, items) == [] <==> !AnyTicked(form, items)
    decreases |items|
  {
    if items != [] {
      var rest := items[1..];
      TickedEmpty(form, rest);
      if AnyTicked(form, rest) {
        var i :| 0 <= i < |rest| && IsChecked(form, rest[i].id);
        assert items[i + 1] == rest[i];
      }
      if AnyTicked(form, items) && !IsChecked(form, items[0].id) {
        var i :| 0 <= i < |items| && IsChecked(form, items[i].id);
        assert rest[i - 1] == items[i];
      }
    }
  }

  /** Every ticked item's words appear on the checklist's line. */
  lemma {:induction false} TickedIncludes(form: seq<Field>, items: seq<Item>, i: nat)
    requires i < |items| && IsChecked(form, items[i].id)
    ensures items[i].words in Ticked(form, items)
    decreases i
  {
    if i > 0 {
      TickedIncludes(form, items[1..], i - 1);
    }
  }

  /** Every word on the checklist's line is that of a ticked item. */
  lemma {:induction false} TickedOnly(form: seq<Field>, items: seq<Item>)
    ensures forall w :: w in Ticked(form, items) ==>
      exists i :: 0 <= i < |items| && IsChecked(form, items[i].id) && items[i].words == w
    decreases |items|
  {
    if items != [] {
      var rest := items[1..];
      TickedOnly(form, rest);
      forall w | w in Ticked(form, rest)
        ensures exists i :: 0 <= i < |items| && IsChecked(form, items[i].id) && items[i].words == w
      {
        var i :| 0 <= i < |rest| && IsChecked(form, rest[i].id) && rest[i].words == w;
        assert items[i + 1] == rest[i];
      }
    }
  }

  const AirwayItems := [
    Item("airway-mouth", "Mouth Opening <3cm"), Item("airway-tmd", "TMD <6cm"),
    Item("airway-neck", "Neck Mobility Reduced"), Item("airway-bmi", "High BMI")]

  const ContraindicationItems := [
    Item("ci-allergy", "Allergy"), Item("ci-hemo", "Haemodynamic Instability"),
    Item("ci-gcs", "Compromised Airway/GCS")]

  const RiskItems := [
    Item("risk-nausea", "Nausea"), Item("risk-drowsy", "Drowsiness"),
    Item("risk-hypotension", "Hypotension"), Item("risk-resp-depress", "Hypoxia"),
    Item("risk-laryngospasm", "Laryngospasm"), Item("risk-aspiration", "Aspiration"),
    Item("risk-allergy", "Anaphylaxis"), Item("risk-failure", "Proc Failure"),
    Item("risk-treatment", "Further Tx/Admission"), Item("risk-emergence", "Emergence Reaction")]

  const ConsentExtraItems := [
    Item("consent-leaflet", "Leaflet Given"), Item("consent-questions", "Questions Answered")]

  const SoapItems := [
    Item("soap-s", "Suction"), Item("soap-o", "Oxygen/BVM"), Item("soap-a", "Airway Equipment"),
    Item("soap-m", "Monitoring"), Item("soap-e", "Environment/IV")]

  const TimeOutItems := [
    Item("to-identity", "Patient ID"), Item("to-role", "Roles Assigned"),
    Item("to-site", "Site/Side"), Item("to-monitoring", "Monitoring Active")]

  const DischargeItems := [
    Item("dc-vitals", "Vitals Baseline"), Item("dc-aao", "Alert/Orientated"),
    Item("dc-oral", "Tol. Fluids"), Item("dc-pain", "Pain Managed"), Item("dc-home", "Home Care"),
    Item("dc-reversal-time", "Reversal Wait OK")]

  const InstructionItems := [
    Item("di-drive", "No Driving"), Item("di-adult", "Accompanied"),
    Item("di-alcohol", "No Alcohol"), Item("di-decisions", "No Legal Decisions")]

  /** `list.length ? list.join(', ') : fallback`. */
  function ListOr(xs: seq<string>, fallback: string): string
  {
    if xs == [] then fallback else Join(xs, ", ")
  }

  // ------------------------------------------------------- drug time labels

  predicate IsLineTerminator(c: char)
  {
    c == '\n' || c == '\r' || c == '\U{2028}' || c == '\U{2029}'
  }

  /** The position of the first ')' of `t`, provided no line terminator comes before it. */
  function CloseParen(t: string): (r: Option<nat>)
    ensures r.Some? ==> r.value < |t| && t[r.value] == ')'
    decreases |t|
  {
    if t == "" then None
    else if t[0] == ')' then Some(0)
    else if IsLineTerminator(t[0]) then None
    else match CloseParen(t[1..])
      case None => None
      case Some(k) => Some(k + 1)
  }

  /** The capture of `/\((.*?)\)/`: the text between the leftmost '(' that has a
      ')' later on its line and the nearest such ')'. */
  function ParenGroup(s: string): (r: Option<string>)
    decreases |s|
  {
    if s == "" then None
    else if s[0] == '(' then
      match CloseParen(s[1..])
      case Some(j) => Some(s[1..1 + j])
      case None => ParenGroup(s[1..])
    else ParenGroup(s[1..])
  }

  /** The ')' found is the first one, and no line ends before it; when none is
      found, every ')' lies beyond the end of the line. */
  lemma {:induction false} CloseParenFirst(t: string)
    ensures CloseParen(t).Some? ==>
      forall k :: 0 <= k < CloseParen(t).value ==> t[k] != ')' && !IsLineTerminator(t[k])
    ensures CloseParen(t).None? ==>
      forall k :: 0 <= k < |t| && t[k] == ')' ==> exists m :: 0 <= m < k && IsLineTerminator(t[m])
    decreases |t|
  {
    if t != "" && t[0] != ')' && !IsLineTerminator(t[0]) {
      var rest := t[1..];
      CloseParenFirst(rest);
      assert forall k :: 1 <= k < |t| ==> t[k] == rest[k - 1];
      if CloseParen(rest).None? {
        forall k | 0 <= k < |t| && t[k] == ')'
          ensures exists m :: 0 <= m < k && IsLineTerminator(t[m])
        {
          assert rest[k - 1] == ')';
          var m :| 0 <= m < k - 1 && IsLineTerminator(rest[m]);
          assert IsLineTerminator(t[m + 1]);
        }
      }
    }
  }

  /** A '(' at `i` that has a ')' later on its line. */
  predicate OpensAt(s: string, i: int)
  {
    0 <= i < |s| && s[i] == '(' && CloseParen(s[i + 1..]).Some?
  }

  /** The capture is the text after the leftmost opening '(' up to the ')' that closes it. */
  lemma {:induction false} ParenGroupAt(s: string, i: nat)
    requires OpensAt(s, i)
    requires forall m :: 0 <= m < i ==> !OpensAt(s, m)
    ensures ParenGroup(s) == Some(s[i + 1..i + 1 + CloseParen(s[i + 1..]).value])
    decreases i
  {
    if i > 0 {
      var rest := s[1..];
      assert !OpensAt(s, 0);
      assert rest[i - 1] == s[i] && rest[i - 1 + 1..] == s[i + 1..];
      forall m | 0 <= m < i - 1
        ensures !OpensAt(rest, m)
      {
        assert !OpensAt(s, m + 1);
        assert rest[m] == s[m + 1] && rest[m + 1..] == s[m + 2..];
      }
      ParenGroupAt(rest, i - 1);
      assert rest[i..i + CloseParen(s[i + 1..]).value] == s[i + 1..i + 1 + CloseParen(s[i + 1..]).value];
    }
  }

  /** Without an opening '(' there is no capture. */
  lemma {:induction false} ParenGroupNone(s: string)
    requires forall m :: 0 <= m < |s| ==> !OpensAt(s, m)
    ensures ParenGroup(s) == None
    decreases |s|
  {
    if s != "" {
      var rest := s[1..];
      assert !OpensAt(s, 0);
      forall m | 0 <= m < |rest|
        ensures !OpensAt(rest, m)
      {
        assert !OpensAt(s, m + 1);
        assert rest[m] == s[m + 1] && rest[m + 1..] == s[m + 2..];
      }
      ParenGroupNone(rest);
    }
  }

  // ----------------------------------------------------------------- layout

  /** The airway line is printed when any airway finding is recorded. */
  predicate AirwayRecorded(form: seq<Field>)
  {
    CheckedRadio(form, "airway-mallampati") != "" || CheckedRadio(form, "airway-ulbt") != ""
    || Ticked(form, AirwayItems) != []
  }

  /** Which optional lines of the form sections are printed. */
  datatype Shown = Shown(
    senior: bool, frail: bool, airway: bool, contraindications: bool, consentNotes: bool,
    soapMe: bool, aagbi: bool, complications: bool, notes: bool, instructions: bool, signOff: bool)

  /** The composer's conditions, each read from the form once. */
  function ShownOf(form: seq<Field>): Shown
  {
    Shown(
      senior := IsChecked(form, "senior-aware"),
      frail := IsChecked(form, "frail-elderly"),
      airway := AirwayRecorded(form),
      contraindications := Ticked(form, ContraindicationItems) != [],
      consentNotes := Ticked(form, ConsentExtraItems) != [],
      soapMe := Ticked(form, SoapItems) != [],
      aagbi := IsChecked(form, "plan-aagbi"),
      complications := Val(form, "complications-notes") != "",
      notes := Val(form, "general-notes") != "",
      instructions := Ticked(form, InstructionItems) != [],
      signOff := Val(form, "signoff-name") != "" || Val(form, "signoff-gmc") != "")
  }

  /** Section 1. Staff & Patient. */
  function StaffLayout(sh: Shown): seq<Kind>
  {
    [Heading(1), ProcedureLine, IndicationLine] + Opt(sh.senior, SeniorAware)
    + [SedationistLine, StaffLine, WeightLine] + Opt(sh.frail, FrailNote)
    + [AllergiesLine, PreAnalgesiaLine, FastingLine]
  }

  /** Section 2. Assessment & Consent. */
  function AssessmentLayout(sh: Shown): seq<Kind>
  {
    [Heading(2)] + Opt(sh.airway, AirwayLine) + [AsaLine] + Opt(sh.contraindications, ContraindicationsLine)
    + [CapacityLine, RisksLine, ConsentLine] + Opt(sh.consentNotes, ConsentNotesLine)
  }

  /** Section 3. Plan & Safety. */
  function PlanLayout(sh: Shown): seq<Kind>
  {
    [Heading(3), TargetLine, PreVitalsLine] + Opt(sh.soapMe, SoapMeLine) + Opt(sh.aagbi, AagbiLine) + [TimeOutLine]
  }

  /** One line per drug row, in table order. */
  function DrugLines(n: nat): (r: seq<Kind>)
    ensures |r| == n
  {
    if n == 0 then [] else DrugLines(n - 1) + [DrugLine(n - 1)]
  }

  function DrugLayout(rows: seq<DrugRow>): seq<Kind>
  {
    if rows == [] then [NoDrugs] else [DrugsHeader] + DrugLines(|rows|)
  }

  /** One line for each of the first `n` observation rows that has a vital entered. */
  function ObsLines(rows: seq<ObsRow>, n: nat): seq<Kind>
    requires n <= |rows|
  {
    if n == 0 then [] else ObsLines(rows, n - 1) + (if HasVitals(rows[n - 1]) then [ObsLine(n - 1)] else [])
  }

  /** The observations: a heading whenever the table has rows, even if none of them has a vital. */
  function ObsLayout(rows: seq<ObsRow>): seq<Kind>
  {
    if rows == [] then [] else [ObsHeader] + ObsLines(rows, |rows|)
  }

  /** Section 5. Outcome & Discharge. */
  function OutcomeLayout(sh: Shown): seq<Kind>
  {
    [Heading(5), OutcomeLine, DisposalLine, DischargeChecksLine]
    + Opt(sh.instructions, InstructionsLine) + Opt(sh.signOff, SignOffLine)
  }

  /** The summary, the title and the rule above section 1. */
  const HeaderLayout := [Summary, Title, Rule]

  /** The notes and the spacer that close section 4. */
  function NotesLayout(sh: Shown): seq<Kind>
  {
    Opt(sh.complications, Complications) + Opt(sh.notes, Notes) + [Spacer]
  }

  /** Section 4. Intra-Procedure Log. */
  function IntraLayout(sh: Shown, drugs: seq<DrugRow>, obs: seq<ObsRow>): seq<Kind>
  {
    [Heading(4), StampsLine] + DrugLayout(drugs) + ObsLayout(obs) + NotesLayout(sh)
  }

  function LayoutOf(sh: Shown, drugs: seq<DrugRow>, obs: seq<ObsRow>): seq<Kind>
  {
    HeaderLayout + StaffLayout(sh) + AssessmentLayout(sh) + PlanLayout(sh) + IntraLayout(sh, drugs, obs)
    + OutcomeLayout(sh)
  }

  /** Everything before the drug lines. */
  function FrontLayout(sh: Shown): seq<Kind>
  {
    HeaderLayout + StaffLayout(sh) + AssessmentLayout(sh) + PlanLayout(sh) + [Heading(4), StampsLine]
  }

  /** Everything after the observation lines. */
  function BackLayout(sh: Shown): seq<Kind>
  {
    NotesLayout(sh) + OutcomeLayout(sh)
  }

  /** The record is the front lines, the two tables and the back lines. */
  lemma LayoutParts(sh: Shown, drugs: seq<DrugRow>, obs: seq<ObsRow>)
    ensures LayoutOf(sh, drugs, obs) == FrontLayout(sh) + DrugLayout(drugs) + ObsLayout(obs) + BackLayout(sh)
  {
    var p := HeaderLayout + StaffLayout(sh) + AssessmentLayout(sh) + PlanLayout(sh);
    var t, d, o, n, q := [Heading(4), StampsLine], DrugLayout(drugs), ObsLayout(obs), NotesLayout(sh), OutcomeLayout(sh);
    calc {
      LayoutOf(sh, drugs, obs);
      p + (t + d + o + n) + q;
      { assert p + (t + d + o + n) == p + t + d + o + n; }
      p + t + d + o + n + q;
      { assert n + q == BackLayout(sh); assert p + t + d + o + n + q == (p + t) + d + o + (n + q); }
      FrontLayout(sh) + d + o + BackLayout(sh);
    }
  }

  /** The lines of the record, in the order the composer appends them. */
  function Layout(input: LogInput): seq<Kind>
  {
    LayoutOf(ShownOf(input.form), input.drugs, input.obs)
  }

  lemma {:induction false} DrugLinesMembers(n: nat, k: Kind)
    ensures k in DrugLines(n) <==> k.DrugLine? && k.row < n
  {
    if n > 0 {
      DrugLinesMembers(n - 1, k);
    }
  }

  lemma {:induction false} ObsLinesMembers(rows: seq<ObsRow>, n: nat, k: Kind)
    requires n <= |rows|
    ensures k in ObsLines(rows, n) <==> k.ObsLine? && k.row < n && HasVitals(rows[k.row])
  {
    if n > 0 {
      ObsLinesMembers(rows, n - 1, k);
    }
  }

  /** The table parts hold only table lines. */
  lemma TableKinds(drugs: seq<DrugRow>, obs: seq<ObsRow>)
    ensures forall k :: k in DrugLayout(drugs) ==> k.DrugsHeader? || k.NoDrugs? || k.DrugLine?
    ensures forall k :: k in ObsLayout(obs) ==> k.ObsHeader? || k.ObsLine?
  {
    forall k | k in DrugLayout(drugs)
      ensures k.DrugsHeader? || k.NoDrugs? || k.DrugLine?
    {
      DrugLinesMembers(|drugs|, k);
    }
    forall k | k in ObsLayout(obs)
      ensures k.ObsHeader? || k.ObsLine?
    {
      ObsLinesMembers(obs, |obs|, k);
    }
  }

  /** The section a line belongs to: 0 for the lines above section 1, then
      sections 1 to 5 as the record numbers them. */
  function SectionOf(k: Kind): nat
  {
    match k
    case Summary | Title | Rule => 0
    case Heading(n) => n
    case ProcedureLine | IndicationLine | SeniorAware | SedationistLine | StaffLine | WeightLine | FrailNote
      | AllergiesLine | PreAnalgesiaLine | FastingLine => 1
    case AirwayLine | AsaLine | ContraindicationsLine | CapacityLine | RisksLine | ConsentLine | ConsentNotesLine => 2
    case TargetLine | PreVitalsLine | SoapMeLine | AagbiLine | TimeOutLine => 3
    case StampsLine | DrugsHeader | DrugLine(_) | NoDrugs | ObsHeader | ObsLine(_) | Complications | Notes | Spacer => 4
    case OutcomeLine | DisposalLine | DischargeChecksLine | InstructionsLine | SignOffLine => 5
  }

  /** Every part of the record holds only lines of its own section. */
  lemma PartSections(sh: Shown, drugs: seq<DrugRow>, obs: seq<ObsRow>)
    ensures forall k :: k in HeaderLayout ==> SectionOf(k) == 0
    ensures forall k :: k in StaffLayout(sh) ==> SectionOf(k) == 1
    ensures forall k :: k in AssessmentLayout(sh) ==> SectionOf(k) == 2
    ensures forall k :: k in PlanLayout(sh) ==> SectionOf(k) == 3
    ensures forall k :: k in IntraLayout(sh, drugs, obs) ==> SectionOf(k) == 4
    ensures forall k :: k in OutcomeLayout(sh) ==> SectionOf(k) == 5
  {
    StaffSection(sh);
    AssessmentSection(sh);
    PlanSection(sh);
    IntraSection(sh, drugs, obs);
    OutcomeSection(sh);
  }

  lemma StaffSection(sh: Shown)
    ensures forall k :: k in StaffLayout(sh) ==> SectionOf(k) == 1
  {
  }

  lemma AssessmentSection(sh: Shown)
    ensures forall k :: k in AssessmentLayout(sh) ==> SectionOf(k) == 2
  {
  }

  lemma PlanSection(sh: Shown)
    ensures forall k :: k in PlanLayout(sh) ==> SectionOf(k) == 3
  {
  }

  lemma IntraSection(sh: Shown, drugs: seq<DrugRow>, obs: seq<ObsRow>)
    ensures forall k :: k in IntraLayout(sh, drugs, obs) ==> SectionOf(k) == 4
  {
    DrugSection(drugs);
    ObsSection(obs);
    NotesSection(sh);
  }

  lemma NotesSection(sh: Shown)
    ensures forall k :: k in NotesLayout(sh) ==> SectionOf(k) == 4
  {
  }

  lemma DrugSection(drugs: seq<DrugRow>)
    ensures forall k :: k in DrugLayout(drugs) ==> SectionOf(k) == 4
  {
    forall k | k in DrugLayout(drugs)
      ensures SectionOf(k) == 4
    {
      DrugLinesMembers(|drugs|, k);
    }
  }

  lemma ObsSection(obs: seq<ObsRow>)
    ensures forall k :: k in ObsLayout(obs) ==> SectionOf(k) == 4
  {
    forall k | k in ObsLayout(obs)
      ensures SectionOf(k) == 4
    {
      ObsLinesMembers(obs, |obs|, k);
    }
  }

  lemma OutcomeSection(sh: Shown)
    ensures forall k :: k in OutcomeLayout(sh) ==> SectionOf(k) == 5
  {
  }

  /** The part of the record that holds the lines of section `n` (0 for the lines above section 1). */
  function SectionLayout(sh: Shown, drugs: seq<DrugRow>, obs: seq<ObsRow>, n: nat): seq<Kind>
  {
    if n == 0 then HeaderLayout
    else if n == 1 then StaffLayout(sh)
    else if n == 2 then AssessmentLayout(sh)
    else if n == 3 then PlanLayout(sh)
    else if n == 4 then IntraLayout(sh, drugs, obs)
    else if n == 5 then OutcomeLayout(sh)
    else []
  }

  /** A line is in the record exactly when the part for its own section holds it. */
  lemma InOwnSection(sh: Shown, drugs: seq<DrugRow>, obs: seq<ObsRow>, k: Kind)
    ensures k in LayoutOf(sh, drugs, obs) <==> k in SectionLayout(sh, drugs, obs, SectionOf(k))
  {
    PartSections(sh, drugs, obs);
  }

  /** Which lines the record prints, stated line by line: the five numbered headings,
      each optional line under its own condition, the table lines by the tables' rows,
      and every other line always. */
  predicate Printed(sh: Shown, drugs: seq<DrugRow>, obs: seq<ObsRow>, k: Kind)
  {
    match k
    case Heading(n) => 1 <= n <= 5
    case SeniorAware => sh.senior
    case FrailNote => sh.frail
    case AirwayLine => sh.airway
    case ContraindicationsLine => sh.contraindications
    case ConsentNotesLine => sh.consentNotes
    case SoapMeLine => sh.soapMe
    case AagbiLine => sh.aagbi
    case NoDrugs => drugs == []
    case DrugsHeader => drugs != []
    case DrugLine(i) => i < |drugs|
    case ObsHeader => obs != []
    case ObsLine(i) => i < |obs| && HasVitals(obs[i])
    case Complications => sh.complications
    case Notes => sh.notes
    case InstructionsLine => sh.instructions
    case SignOffLine => sh.signOff
    case _ => true
  }

  lemma HeaderMembers(sh: Shown, drugs: seq<DrugRow>, obs: seq<ObsRow>, k: Kind)
    requires SectionOf(k) == 0
    ensures k in HeaderLayout <==> Printed(sh, drugs, obs, k)
  {
  }

  lemma StaffMembers(sh: Shown, drugs: seq<DrugRow>, obs: seq<ObsRow>, k: Kind)
    requires SectionOf(k) == 1
    ensures k in StaffLayout(sh) <==> Printed(sh, drugs, obs, k)
  {
  }

  lemma AssessmentMembers(sh: Shown, drugs: seq<DrugRow>, obs: seq<ObsRow>, k: Kind)
    requires SectionOf(k) == 2
    ensures k in AssessmentLayout(sh) <==> Printed(sh, drugs, obs, k)
  {
  }

  lemma PlanMembers(sh: Shown, drugs: seq<DrugRow>, obs: seq<ObsRow>, k: Kind)
    requires SectionOf(k) == 3
    ensures k in PlanLayout(sh) <==> Printed(sh, drugs, obs, k)
  {
  }

  lemma DrugLayoutMembers(drugs: seq<DrugRow>, k: Kind)
    ensures k in DrugLayout(drugs) <==>
      (k.NoDrugs? && drugs == []) || (k.DrugsHeader? && drugs != []) || (k.DrugLine? && k.row < |drugs|)
  {
    DrugLinesMembers(|drugs|, k);
  }

  lemma ObsLayoutMembers(obs: seq<ObsRow>, k: Kind)
    ensures k in ObsLayout(obs) <==>
      (k.ObsHeader? && obs != []) || (k.ObsLine? && k.row < |obs| && HasVitals(obs[k.row]))
  {
    ObsLinesMembers(obs, |obs|, k);
  }

  lemma NotesMembers(sh: Shown, k: Kind)
    ensures k in NotesLayout(sh) <==> (k.Complications? && sh.complications) || (k.Notes? && sh.notes) || k.Spacer?
  {
  }

  lemma IntraMembers(sh: Shown, drugs: seq<DrugRow>, obs: seq<ObsRow>, k: Kind)
    requires SectionOf(k) == 4
    ensures k in IntraLayout(sh, drugs, obs) <==> Printed(sh, drugs, obs, k)
  {
    DrugLayoutMembers(drugs, k);
    ObsLayoutMembers(obs, k);
    NotesMembers(sh, k);
  }

  lemma OutcomeMembers(sh: Shown, drugs: seq<DrugRow>, obs: seq<ObsRow>, k: Kind)
    requires SectionOf(k) == 5
    ensures k in OutcomeLayout(sh) <==> Printed(sh, drugs, obs, k)
  {
  }

  /** The record's lines are exactly the printed ones. */
  lemma LayoutMembers(sh: Shown, drugs: seq<DrugRow>, obs: seq<ObsRow>, k: Kind)
    ensures k in LayoutOf(sh, drugs, obs) <==> Printed(sh, drugs, obs, k)
  {
    InOwnSection(sh, drugs, obs, k);
    var n := SectionOf(k);
    if n == 0 {
      HeaderMembers(sh, drugs, obs, k);
    } else if n == 1 {
      StaffMembers(sh, drugs, obs, k);
    } else if n == 2 {
      AssessmentMembers(sh, drugs, obs, k);
    } else if n == 3 {
      PlanMembers(sh, drugs, obs, k);
    } else if n == 4 {
      IntraMembers(sh, drugs, obs, k);
    } else if n == 5 {
      OutcomeMembers(sh, drugs, obs, k);
    }
  }

  /** The record prints exactly the lines `Printed` names for its form and tables. */
  lemma RecordLines(input: LogInput, k: Kind)
    ensures k in Layout(input) <==> Printed(ShownOf(input.form), input.drugs, input.obs, k)
  {
    LayoutMembers(ShownOf(input.form), input.drugs, input.obs, k);
  }

  /** The conditions of the checklist lines: a line is printed when a box of its list is ticked. */
  lemma ShownConditions(form: seq<Field>)
    ensures ShownOf(form).airway <==>
      CheckedRadio(form, "airway-mallampati") != "" || CheckedRadio(form, "airway-ulbt") != ""
      || AnyTicked(form, AirwayItems)
    ensures ShownOf(form).contraindications <==> AnyTicked(form, ContraindicationItems)
    ensures ShownOf(form).consentNotes <==> AnyTicked(form, ConsentExtraItems)
    ensures ShownOf(form).soapMe <==> AnyTicked(form, SoapItems)
    ensures ShownOf(form).instructions <==> AnyTicked(form, InstructionItems)
  {
    TickedEmpty(form, AirwayItems);
    TickedEmpty(form, ContraindicationItems);
    TickedEmpty(form, ConsentExtraItems);
    TickedEmpty(form, SoapItems);
    TickedEmpty(form, InstructionItems);
  }

  // ------------------------------------------------------------------- text

  /** The time shown for a drug row: the trimmed text in parentheses if any, else the trimmed cell. */
  function DrugTime(cell: string): string
  {
    match ParenGroup(cell)
    case Some(g) => OrElse(Trim(g), Trim(cell))
    case None => Trim(cell)
  }

  // ------------------------------------------------------------------ markup

  /** An inline element with a style: `<span style="style">text</span>`. */
  function Span(style: string, text: string): string
  {
    "<span style=\"" + style + "\">" + text + "</span>"
  }

  function Bold(text: string): string
  {
    Span("font-weight:bold", text)
  }

  /** The bold red of allergies, contraindications and complications. */
  function Alert(text: string): string
  {
    Span("font-weight:bold; color:#b91c1c;", text)
  }

  function Italic(text: string): string
  {
    Span("font-style:italic", text)
  }

  function Underline(text: string): string
  {
    Span("text-decoration:underline", text)
  }

  const Br := "<br>"

  /** A drug row's line: always with an "mg" suffix, whatever unit the summary uses. */
  function DrugLineText(r: DrugRow): string
  {
    "- " + DrugTime(r.time) + ": " + r.name + " " + r.dose + " mg" + Br
  }

  /** Every drug line says "mg", whatever unit the drug's total is printed in. */
  lemma DrugLineSaysMg(r: DrugRow)
    ensures var t := DrugLineText(r); |t| >= 7 && t[|t| - 7..] == " mg" + Br
  {
  }

  function ObsLineText(o: ObsRow): string
  {
    "- " + o.time + ": HR " + o.hr + ", BP " + o.bp + ", SpO2 " + o.spo2 + "%, RR " + o.rr + Br
  }

  /** The capacity line: the selected answer, "Yes" when none is selected. */
  function CapacityText(form: seq<Field>): (r: string)
    ensures CheckedRadio(form, "capacity") == "" ==> r == "Capacity: Yes" + Br
    ensures CheckedRadio(form, "capacity") != "" ==> r == "Capacity: " + CheckedRadio(form, "capacity") + Br
  {
    "Capacity: " + OrElse(CheckedRadio(form, "capacity"), "Yes") + Br
  }

  /** A checklist line that is always printed: the ticked items, or a placeholder when none is. */
  function ChecklistText(caption: string, form: seq<Field>, items: seq<Item>, fallback: string): string
  {
    caption + ": " + ListOr(Ticked(form, items), fallback) + Br
  }

  /** An always-printed checklist line shows its placeholder exactly when nothing is ticked,
      and otherwise lists the ticked items. */
  lemma ChecklistPlaceholder(caption: string, form: seq<Field>, items: seq<Item>, fallback: string)
    ensures !AnyTicked(form, items) ==> ChecklistText(caption, form, items, fallback) == caption + ": " + fallback + Br
    ensures AnyTicked(form, items) ==>
      ChecklistText(caption, form, items, fallback) == caption + ": " + Join(Ticked(form, items), ", ") + Br
  {
    TickedEmpty(form, items);
  }

  /** The form-dependent lines, reading the form with `val`, `isChecked` and `findCheckedRadio`. */
  function LinesOf(form: seq<Field>): FormLines
  {
    var v := (id: string) => Val(form, id);
    var radio := (name: string) => CheckedRadio(form, name);
    FormLines(
      summaryLead :=
        Span("font-weight:bold; font-size:1.1em; color:#1e293b;", "SUMMARY:") + " "
        + OrElse(v("procedure"), "Procedure") + " for " + OrElse(v("indication"), "...") + ". "
        + Bold(OrElse(radio("outcome-proc"), "Outcome Pending")) + ". ",
      procedure := "Procedure: " + Bold(OrElse(v("procedure"), "Not specified")) + Br,
      indication := "Indication: " + OrElse(v("indication"), "Not specified") + Br,
      sedationist :=
        "Sedationist: " + OrElse(v("sedationist"), "...") + " (" + OrElse(v("sedationist-grade"), "Grade") + ")" + Br,
      staff := "Proc. Dr: " + OrElse(v("procedure-doctor"), "...") + " | Nurse: " + OrElse(v("nurse"), "...") + Br,
      weight :=
        "Weight: " + OrElse(v("weight"), "--") + " kg " + (if IsChecked(form, "weight-estimated") then "(Est)" else "")
        + " | Age: " + OrElse(v("age"), "--") + " yrs" + Br,
      allergies := "Allergies: " + Alert(OrElse(v("allergies"), "None Known")) + Br,
      preAnalgesia := "Pre-Analgesia: " + OrElse(v("pre-analgesia"), "None") + Br,
      fasting :=
        "Fasting: Food (" + OrElse(v("last-food"), "--:--") + ") | Fluid (" + OrElse(v("last-fluid"), "--:--")
        + ")" + Br + Br,
      airway :=
        "Airway: Mallampati " + OrElse(radio("airway-mallampati"), "-") + " | ULBT " + OrElse(radio("airway-ulbt"), "-")
        + " | Flags: " + ListOr(Ticked(form, AirwayItems), "None") + Br,
      asa := "ASA Grade: " + Bold(AsaGradeText(form)) + Br,
      contraindications := Alert("CONTRAINDICATIONS NOTED: " + Join(Ticked(form, ContraindicationItems), ", ")) + Br,
      capacity := CapacityText(form),
      risks := ChecklistText("Risks Discussed", form, RiskItems, "None documented"),
      consent := "Consent: " + OrElse(radio("consent-type"), "...") + Br,
      consentNotes := "Consent Notes: " + Join(Ticked(form, ConsentExtraItems), ", ") + Br,
      target := "Target: " + OrElse(v("plan-target"), "...") + " | Agent: " + OrElse(v("plan-agent"), "...") + Br,
      preVitals :=
        "Pre-Vitals: HR " + OrElse(v("pre-vital-hr"), "-") + " | BP " + OrElse(v("pre-vital-bp"), "-")
        + " | SpO2 " + OrElse(v("pre-vital-spo2"), "-") + "% | RR " + OrElse(v("pre-vital-rr"), "-") + " " + Br,
      soapMe := "Checklist (SOAP-ME): " + Join(Ticked(form, SoapItems), ", ") + Br,
      timeOut := ChecklistText("Safety Time Out", form, TimeOutItems, "None Recorded"),
      complications := Br + Alert("COMPLICATIONS & INTERVENTION:") + Br + v("complications-notes") + Br,
      notes := Br + Bold("Notes:") + " " + v("general-notes") + Br,
      outcome := "Outcome: " + OrElse(radio("outcome-proc"), "...") + Br,
      disposal := "Disposal: " + OrElse(radio("disposal"), "...") + Br,
      dischargeChecks := ChecklistText("Discharge Checks", form, DischargeItems, "None Checked"),
      instructions := "Instructions Given: " + Join(Ticked(form, InstructionItems), ", ") + Br,
      signOff :=
        Br + Bold("Signed Off By:") + " " + v("signoff-name") + " (GMC: " + v("signoff-gmc") + ") @ " + v("signoff-time"))
  }

  /** What the texts of the lines depend on: the form's lines, the tables, the
      stamps and date, and the drug text of the summary (`SummaryOf` the totals). */
  datatype Context = Context(lines: FormLines, input: LogInput, drugSummary: string)

  function HeadingText(n: nat): string
  {
    if n == 1 then Bold("1. Staff & Patient") + Br
    else if n == 2 then Bold("2. Assessment & Consent") + Br
    else if n == 3 then Br + Bold("3. Plan & Safety") + Br
    else if n == 4 then Br + Bold("4. Intra-Procedure Log") + Br
    else if n == 5 then Bold("5. Outcome & Discharge") + Br
    else ""
  }

  const NoDrugsText := Italic("No drugs recorded yet.") + Br
  const DrugsHeaderText := Underline("Drugs Given:") + Br
  const ObsHeaderText := Underline("Observations:") + Br

  /** The text the composer appends for line `k`. */
  function LineText(c: Context, k: Kind): string
  {
    var l := c.lines;
    match k
    case Summary => l.summaryLead + "Total Drugs: " + Bold(c.drugSummary) + Br + Br
    case Title => Bold("PROCEDURAL SEDATION RECORD (" + c.input.date + ")") + Br
    case Rule => "----------------------------------------------------------" + Br
    case Heading(n) => HeadingText(n)
    case ProcedureLine => l.procedure
    case IndicationLine => l.indication
    case SeniorAware => Span("font-weight:bold; color:#166534;", "\U{2713} Senior in Department Aware") + Br
    case SedationistLine => l.sedationist
    case StaffLine => l.staff
    case WeightLine => l.weight
    case FrailNote => Italic("Patient flagged as Frail / >65") + Br
    case AllergiesLine => l.allergies
    case PreAnalgesiaLine => l.preAnalgesia
    case FastingLine => l.fasting
    case AirwayLine => l.airway
    case AsaLine => l.asa
    case ContraindicationsLine => l.contraindications
    case CapacityLine => l.capacity
    case RisksLine => l.risks
    case ConsentLine => l.consent
    case ConsentNotesLine => l.consentNotes
    case TargetLine => l.target
    case PreVitalsLine => l.preVitals
    case SoapMeLine => l.soapMe
    case AagbiLine => "Monitoring: AAGBI Standards + Waveform Capnography Confirmed" + Br
    case TimeOutLine => l.timeOut
    case StampsLine =>
      "Proc Start: " + OrElse(c.input.procStart, "--:--") + " | End: " + OrElse(c.input.procEnd, "--:--")
      + " | Awake: " + OrElse(c.input.awake, "--:--") + Br
    case DrugsHeader => DrugsHeaderText
    case DrugLine(i) => if i < |c.input.drugs| then DrugLineText(c.input.drugs[i]) else ""
    case NoDrugs => NoDrugsText
    case ObsHeader => ObsHeaderText
    case ObsLine(i) => if i < |c.input.obs| then ObsLineText(c.input.obs[i]) else ""
    case Complications => l.complications
    case Notes => l.notes
    case Spacer => Br
    case OutcomeLine => l.outcome
    case DisposalLine => l.disposal
    case DischargeChecksLine => l.dischargeChecks
    case InstructionsLine => l.instructions
    case SignOffLine => l.signOff
  }

  /** The texts of all lines, as a table from line to text. */
  function Texts(c: Context): Kind -> string
  {
    (k: Kind) => LineText(c, k)
  }

  /** The concatenated texts of the lines `ks`. */
  function Render(text: Kind -> string, ks: seq<Kind>): string
  {
    if ks == [] then "" else Render(text, ks[..|ks| - 1]) + text(ks[|ks| - 1])
  }

  lemma {:induction false} RenderConcat(text: Kind -> string, a: seq<Kind>, b: seq<Kind>)
    ensures Render(text, a + b) == Render(text, a) + Render(text, b)
    decreases |b|
  {
    if b == [] {
      assert a + b == a;
    } else {
      var b' := b[..|b| - 1];
      assert (a + b)[..|a + b| - 1] == a + b';
      assert (a + b)[|a + b| - 1] == b[|b| - 1];
      RenderConcat(text, a, b');
    }
  }

  function ContextOf(input: LogInput, show: real -> string): Context
  {
    Context(LinesOf(input.form), input, SummaryOf(DrugTotals(input.drugs), show))
  }

  /** The record as `generateEPRLog` writes it into the output element. */
  function EprLog(input: LogInput, show: real -> string): string
  {
    Render(Texts(ContextOf(input, show)), Layout(input))
  }

  // ---------------------------------------------------- the composer's loops

  /** The drug lines of the first `n` rows, as the composer's loop appends them. */
  function DrugText(rows: seq<DrugRow>, n: nat): string
    requires n <= |rows|
  {
    if n == 0 then "" else DrugText(rows, n - 1) + DrugLineText(rows[n - 1])
  }

  lemma {:induction false} DrugTextRendersLayout(text: Kind -> string, rows: seq<DrugRow>, n: nat)
    requires n <= |rows|
    requires forall i :: 0 <= i < |rows| ==> text(DrugLine(i)) == DrugLineText(rows[i])
    ensures Render(text, DrugLines(n)) == DrugText(rows, n)
  {
    if n > 0 {
      DrugTextRendersLayout(text, rows, n - 1);
      assert DrugLines(n)[..n - 1] == DrugLines(n - 1);
    }
  }

  /** The observation lines of the first `n` rows: rows without vitals are skipped. */
  function ObsText(rows: seq<ObsRow>, n: nat): string
    requires n <= |rows|
  {
    if n == 0 then "" else ObsText(rows, n - 1) + (if HasVitals(rows[n - 1]) then ObsLineText(rows[n - 1]) else "")
  }

  lemma {:induction false} ObsTextRendersLayout(text: Kind -> string, rows: seq<ObsRow>, n: nat)
    requires n <= |rows|
    requires forall i :: 0 <= i < |rows| ==> text(ObsLine(i)) == ObsLineText(rows[i])
    ensures Render(text, ObsLines(rows, n)) == ObsText(rows, n)
  {
    if n > 0 {
      ObsTextRendersLayout(text, rows, n - 1);
      var tail := if HasVitals(rows[n - 1]) then [ObsLine(n - 1)] else [];
      RenderConcat(text, ObsLines(rows, n - 1), tail);
      assert tail != [] ==> tail[..0] == [];
    }
  }

  /** The drug-table loop of the composer. */
  method RenderDrugLines(rows: seq<DrugRow>) returns (s: string)
    ensures s == DrugsPart(rows)
  {
    if rows == [] {
      return NoDrugsText;
    }
    var lines := "";
    var i := 0;
    while i < |rows|
      invariant 0 <= i <= |rows|
      invariant lines == DrugText(rows, i)
    {
      lines := lines + DrugLineText(rows[i]);
      i := i + 1;
    }
    s := DrugsHeaderText + lines;
  }

  /** The observation-table loop of the composer: rows without vitals are skipped. */
  method RenderObsLines(rows: seq<ObsRow>) returns (s: string)
    ensures s == ObsPart(rows)
  {
    if rows == [] {
      return "";
    }
    var lines := "";
    var i := 0;
    while i < |rows|
      invariant 0 <= i <= |rows|
      invariant lines == ObsText(rows, i)
    {
      var o := rows[i];
      if HasVitals(o) {
        lines := lines + ObsLineText(o);
      }
      i := i + 1;
    }
    s := ObsHeaderText + lines;
  }

  /** What the drug loop appends. */
  function DrugsPart(rows: seq<DrugRow>): string
  {
    if rows == [] then NoDrugsText else DrugsHeaderText + DrugText(rows, |rows|)
  }

  /** What the observation loop appends. */
  function ObsPart(rows: seq<ObsRow>): string
  {
    if rows == [] then "" else ObsHeaderText + ObsText(rows, |rows|)
  }

  /** A text table that gives the table lines the texts the composer's loops append. */
  predicate TablesAgree(text: Kind -> string, drugs: seq<DrugRow>, obs: seq<ObsRow>)
  {
    && text(NoDrugs) == NoDrugsText && text(DrugsHeader) == DrugsHeaderText && text(ObsHeader) == ObsHeaderText
    && (forall i :: 0 <= i < |drugs| ==> text(DrugLine(i)) == DrugLineText(drugs[i]))
    && (forall i :: 0 <= i < |obs| ==> text(ObsLine(i)) == ObsLineText(obs[i]))
  }

  lemma TextsAgree(c: Context)
    ensures TablesAgree(Texts(c), c.input.drugs, c.input.obs)
  {
    HeaderTexts(c);
    DrugRowTexts(c);
    ObsRowTexts(c);
  }

  lemma HeaderTexts(c: Context)
    ensures Texts(c)(NoDrugs) == NoDrugsText
    ensures Texts(c)(DrugsHeader) == DrugsHeaderText
    ensures Texts(c)(ObsHeader) == ObsHeaderText
  {
  }

  lemma DrugRowTexts(c: Context)
    ensures forall i :: 0 <= i < |c.input.drugs| ==> Texts(c)(DrugLine(i)) == DrugLineText(c.input.drugs[i])
  {
    forall i | 0 <= i < |c.input.drugs|
      ensures Texts(c)(DrugLine(i)) == DrugLineText(c.input.drugs[i])
    {
      DrugRowText(c, i);
    }
  }

  lemma DrugRowText(c: Context, i: nat)
    requires i < |c.input.drugs|
    ensures Texts(c)(DrugLine(i)) == DrugLineText(c.input.drugs[i])
  {
  }

  lemma ObsRowTexts(c: Context)
    ensures forall i :: 0 <= i < |c.input.obs| ==> Texts(c)(ObsLine(i)) == ObsLineText(c.input.obs[i])
  {
    forall i | 0 <= i < |c.input.obs|
      ensures Texts(c)(ObsLine(i)) == ObsLineText(c.input.obs[i])
    {
      ObsRowText(c, i);
    }
  }

  lemma ObsRowText(c: Context, i: nat)
    requires i < |c.input.obs|
    ensures Texts(c)(ObsLine(i)) == ObsLineText(c.input.obs[i])
  {
  }

  lemma RenderOne(text: Kind -> string, k: Kind)
    ensures Render(text, [k]) == text(k)
  {
    assert [k][..0] == [];
  }

  lemma DrugPartRenders(text: Kind -> string, drugs: seq<DrugRow>, obs: seq<ObsRow>)
    requires TablesAgree(text, drugs, obs)
    ensures Render(text, DrugLayout(drugs)) == DrugsPart(drugs)
  {
    if drugs == [] {
      RenderOne(text, NoDrugs);
    } else {
      DrugPartRendersRows(text, drugs, obs);
    }
  }

  lemma DrugPartRendersRows(text: Kind -> string, drugs: seq<DrugRow>, obs: seq<ObsRow>)
    requires TablesAgree(text, drugs, obs)
    requires drugs != []
    ensures Render(text, DrugLayout(drugs)) == DrugsPart(drugs)
  {
    DrugTextRendersLayout(text, drugs, |drugs|);
    RenderConcat(text, [DrugsHeader], DrugLines(|drugs|));
    RenderOne(text, DrugsHeader);
  }

  lemma ObsPartRenders(text: Kind -> string, drugs: seq<DrugRow>, obs: seq<ObsRow>)
    requires TablesAgree(text, drugs, obs)
    ensures Render(text, ObsLayout(obs)) == ObsPart(obs)
  {
    if obs != [] {
      ObsTextRendersLayout(text, obs, |obs|);
      RenderConcat(text, [ObsHeader], ObsLines(obs, |obs|));
      RenderOne(text, ObsHeader);
    }
  }

  /** The record is the front lines, what the two loops append, and the back lines. */
  lemma LogSplit(text: Kind -> string, input: LogInput)
    requires TablesAgree(text, input.drugs, input.obs)
    ensures Render(text, Layout(input))
      == Render(text, FrontLayout(ShownOf(input.form))) + DrugsPart(input.drugs) + ObsPart(input.obs)
         + Render(text, BackLayout(ShownOf(input.form)))
  {
    var f, d, o, b := FrontLayout(ShownOf(input.form)), DrugLayout(input.drugs), ObsLayout(input.obs), BackLayout(ShownOf(input.form));
    LayoutParts(ShownOf(input.form), input.drugs, input.obs);
    DrugPartRenders(text, input.drugs, input.obs);
    ObsPartRenders(text, input.drugs, input.obs);
    RenderConcat(text, f, d);
    RenderConcat(text, f + d, o);
    RenderConcat(text, f + d + o, b);
  }

  /** `generateEPRLog`: the totals loop, the straight-line sections and the two
      table loops, producing exactly the record `EprLog` describes. */
  method ComposeLog(input: LogInput, show: real -> string) returns (log: string)
    ensures log == EprLog(input, show)
  {
    var ts := ComputeTotals(input.drugs);
    var c := Context(LinesOf(input.form), input, SummaryOf(ts, show));
    var text := Texts(c);
    var drugs := RenderDrugLines(input.drugs);
    var obs := RenderObsLines(input.obs);
    log := Render(text, FrontLayout(ShownOf(input.form))) + drugs + obs + Render(text, BackLayout(ShownOf(input.form)));
    TextsAgree(c);
    LogSplit(text, input);
  }
}
