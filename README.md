# Procedural sedation record: a Dafny model of the form's script

The page is a single-screen clinical form for procedural sedation. Its script
(`script.js`) does the following:

- keeps the whole form in browser storage and restores it on load;
- composes a rich-text clinical record (the "EPR log") from the form, the drug
  table and the observation table;
- totals the drugs given per drug name;
- suggests initial bolus ranges from the patient's weight;
- runs a sedation timer with a five-minute observation reminder;
- stamps the procedure start, end and awake times once each;
- appends drug and observation rows;
- prints a discharge letter whose validity window starts at the procedure end.

This project models that behaviour in Dafny and proves what it promises.

Modules, in dependency order:

| file | module | what it holds |
|---|---|---|
| `text.dfy` | `Text` | The string primitives the script relies on, as pure functions with their defining lemmas: `||` defaults, `trim`, ASCII `toLowerCase`, `includes`, `join`, `split`, decimal rendering and two-digit padding. |
| `form.dfy` | `Form` | The form's elements as a sequence of fields in document order. It models `getElementById`, `val`, `isChecked` and `findCheckedRadio`, the latter both as a function and as the loop over an `array` of elements. It also holds the capacity panels and the ASA grade text. |
| `ledger.dfy` | `Ledger` | Drug and observation rows and `parseFloat`. It holds the per-drug totals loop, with a reference definition (the sum of every dose recorded under a name), the summary text and the label of a new observation row. |
| `eprlog.dfy` | `EprLog` | `generateEPRLog`. The record is described as a layout: the sequence of lines printed in order, one per drug row and one per observation row with a vital. Each line has a text, and the record is the concatenation of those texts. An imperative `ComposeLog`, with the source's loops, is proved to produce exactly that record. |
| `doseadvisor.dfy` | `DoseAdvisor` | The calculate button's weight-based ranges. |
| `letter.dfy` | `Letter` | The discharge letter: the drugs line, the advice list, the placeholders, and the 24-hour window read from the procedure-end stamp. |
| `timer.dfy` | `Timer` | The timer's state, one tick of the interval, the reminder, stop, start and the timer button's decision. |
| `snapshot.dfy` | `Snapshot` | The record `saveState` stores and what `loadState` writes back, with the round-trip lemmas, including the asymmetries of the source's keys. |
| `page.dfy` | `Page` | The page as a class, `FormPage`, with one method per event handler: save, load, tick, start/stop, stamps, drug and observation rows, dose calculation. Each method states its whole new state against the functions above. |

The browser parts become data in the model:

- **The page's element values and ticks** are a `Field` array: checkbox, radio or
  text-like input, with id, name, value and checked. The array is the document's
  elements in order.
- **The two tables** are sequences of rows.
- **The dose panel** is the advice it shows.
- **The stored record** is a map from keys to values. A key is either a field key
  (a string) or one of the ten slots the page writes itself
  (`drug-table-html` … `btn-awake-text`, see `Snapshot.SlotName`).
- **The log element** is represented by what it was last composed from.
  `FormPage.Log()` is the record `EprLog.EprLog` composes from that source.
- **The current time, today's date and JavaScript's rendering of a number** are
  parameters.

Some of the source's behaviour is easy to miss; the model follows the source:

- **Drug totals are case-sensitive.** "Fentanyl" and "fentanyl" are two totals
  (`Ledger.TotalsNames`).
- **A negative weight is advised on.** The check is `!w`
  (`DoseAdvisor.NegativeWeightAdvised`).
- **The midazolam range is inverted below 20 kg.** The upper bound `0.05·w` falls
  below the fixed 1 mg (`DoseAdvisor.RangesOrdered`).
- **`timer-running` is saved false when the timer starts.** The start handler saves
  before the interval is set (`Page.FormPage.StartTimer`), and the load never reads
  the flag back.
- **Radio and checkbox keys do not round-trip.**
  - A checkbox without an id is saved under `name:value` but looked up under its
    empty id.
  - A radio with an id is saved under the id but looked up under `name:value`.
  - See `Snapshot.CheckboxWithoutIdLost` and `Snapshot.RadioWithIdLost`.
- **Observation vitals are lost on reload.** They are typed into inputs, which
  `innerHTML` does not serialise. Only each row's label survives
  (`Snapshot.Serialised`, `Snapshot.FreshReload`).

## Model

| member | source | states |
|---|---|---|
| Text.OrElse | script.js:151 | `a \|\| d` on strings keeps a non-empty `a` and is never empty when the default is not |
| Text.TrimStartSuffix | script.js:137 | trimming the start drops only leading white space and leaves a suffix not starting with it |
| Text.TrimStartOf | script.js:137 | white space before text that does not start with white space trims to exactly that text |
| Text.TrimEndPrefix | script.js:137 | trimming the end drops only trailing white space and leaves a prefix not ending with it |
| Text.TrimSlice | script.js:137 | `trim` is the slice left after dropping white space at both ends, and what is kept neither starts nor ends with white space |
| Text.Lower | script.js:144 | lower-casing keeps the length and maps each character by ASCII case folding |
| Text.Join | script.js:146 | joining nothing gives "", joining one element gives it |
| Text.JoinEndsWithLast | script.js:146 | a joined list ends with its last element |
| Text.Split | script.js:367 | splitting always gives at least one piece |
| Text.SplitJoin | script.js:367 | splitting then joining with the separator gives the string back, and no piece holds the separator |
| Text.SplitWhole | script.js:367 | a string without the separator splits into itself alone |
| Text.SplitAt | script.js:367 | the piece before the first separator comes first and the rest splits on its own |
| Text.NatToString | script.js:510 | the decimal rendering is non-empty and made of digits |
| Text.NatToStringRoundTrip | script.js:510 | reading a rendered number's digits gives the number back |
| Text.IntToString | script.js:48 | a number's string form is never empty |
| Text.DigitsValue | script.js:369 | a string of digits has a non-negative value |
| Text.Pad2 | script.js:478 | two-digit padding gives exactly two digits |
| Text.Pad2Value | script.js:478 | the two padded digits read back as the number they came from |
| Form.ByIdFirst | script.js:2 | `getElementById` finds the first element with the id, or there is none (the empty id names none) |
| Form.ValOfFirst | script.js:3 | `val` is the value of the first element with the id, and "" when no element has it |
| Form.CheckedRadioNone | script.js:83-89 | with no ticked element in the group, the search returns "" |
| Form.CheckedRadioFirst | script.js:83-89 | the search returns the value of the first ticked element of the group |
| Form.FindCheckedRadio | script.js:83-89 | the loop returns the first ticked element's value, or "" when none is ticked |
| Form.Capacity | script.js:91-102 | exactly one capacity panel shows, and it is the "no" panel exactly when "No" is selected |
| Form.AsaGradeText | script.js:192-195 | no grade gives "-"; a selected grade is printed, with "E" appended exactly when the emergency box is ticked |
| Ledger.DigitRun | script.js:138 | the digit run is the longest prefix of digits |
| Ledger.ParseUnsigned | script.js:138 | an unsigned decimal reads as a non-negative number |
| Ledger.ParseFloat | script.js:138 | text without a digit reads as NaN |
| Ledger.FractionRange | script.js:138 | the digits after a point read as a fraction in [0, 1) |
| Ledger.PointValue | script.js:138 | digits, a point and digits read as a non-negative number; a lone point reads as nothing |
| Ledger.DigitRunOf | script.js:138 | digits followed by a non-digit form exactly the digit run |
| Ledger.ParseUnsignedWhole | script.js:138 | digits followed by neither a digit nor a point read as their decimal value |
| Ledger.ParseUnsignedDecimal | script.js:138 | `w.d` followed by a non-digit reads as w plus d scaled down by its number of places |
| Ledger.ParseFloatSigned | script.js:138 | leading white space is skipped and a '-' negates the number after it, a '+' keeps it |
| Ledger.ParseFloatNat | script.js:138 | a rendered whole number reads back as itself |
| Ledger.ParseFloatDoseText | script.js:138 | " 2.5mg" reads as 2.5 |
| Ledger.ParseFloatNegativeFraction | script.js:138 | "-.5" reads as -0.5 |
| Ledger.FirstIndex | script.js:330 | the index found holds the element and no earlier index does |
| Ledger.Distinct | script.js:329-332 | the de-duplicated names are exactly the names, each once, in order of first occurrence |
| Ledger.TotalNames | script.js:143 | the totals' names are listed one by one in entry order |
| Ledger.Doses | script.js:136-138 | each row is read as its trimmed name and dose, row by row |
| Ledger.Names | script.js:137 | each row's name is read trimmed, row by row |
| Ledger.IndexOf | script.js:139 | the lookup finds an entry with that name, or no entry has it |
| Ledger.SumForAbsent | script.js:133-141 | a name with no dose has a zero sum |
| Ledger.AddDoseEffect | script.js:139-140 | one loop step appends a new name or keeps the names, and adds the dose to that name's amount only |
| Ledger.TotalsDistinct | script.js:133-141 | the totals hold each name once, and exactly the names of the doses |
| Ledger.TotalsNames | script.js:133-143 | the totals list the distinct names in order of first administration |
| Ledger.TotalsAreSums | script.js:133-141 | each total is the sum of every dose recorded under that exact name |
| Ledger.ComputeTotals | script.js:133-141 | the totals loop gives one entry per distinct trimmed name, in first-use order, holding the sum of its doses |
| Ledger.Unit | script.js:144 | the unit is "mcg" exactly when the lower-cased name contains "fentanyl", and "mg" otherwise |
| Ledger.SummaryEntries | script.js:143-146 | one summary entry per total, in order |
| Ledger.EntryEnding | script.js:144-145 | every summary entry ends with its unit |
| Ledger.SummaryOfEntries | script.js:143-148 | non-empty totals never print as "None Recorded" |
| Ledger.DrugsSummaryNone | script.js:143-148 | the summary says "None Recorded" exactly when the drug table is empty |
| Ledger.ElapsedLabel | script.js:510 | "Pre" before any second has counted; otherwise "T+" and the whole minutes elapsed, then "m" |
| Ledger.NewObsRow | script.js:512-518 | a new observation row has all four vitals empty |
| EprLog.TickedEmpty | script.js:198-202 | a checklist's line is empty exactly when none of its boxes is ticked |
| EprLog.TickedIncludes | script.js:206-219 | every ticked item's words appear on its checklist's line |
| EprLog.TickedOnly | script.js:206-219 | every word on a checklist's line belongs to a ticked item |
| EprLog.CloseParen | script.js:257 | the position found holds a ')' |
| EprLog.CloseParenFirst | script.js:257 | the ')' found is the first on its line; when none is found, every ')' lies beyond the end of the line |
| EprLog.ParenGroupAt | script.js:257 | the capture of `/\((.*?)\)/` is the text between the leftmost '(' that has a ')' later on its line and that ')' |
| EprLog.ParenGroupNone | script.js:257 | without such a '(' there is no capture |
| EprLog.DrugLines | script.js:254-261 | one line per drug row |
| EprLog.LayoutParts | script.js:150-312 | the record is the lines before the tables, the drug part, the observation part and the lines after |
| EprLog.DrugLinesMembers | script.js:254-261 | the drug lines are exactly one per row index |
| EprLog.ObsLinesMembers | script.js:269-279 | the observation lines are exactly those of rows with a vital entered |
| EprLog.TableKinds | script.js:252-280 | the table parts hold only table lines |
| EprLog.PartSections | script.js:150-312 | every part of the record holds only lines of its own numbered section |
| EprLog.InOwnSection | script.js:150-312 | a line is in the record exactly when its own section's part holds it |
| EprLog.HeaderMembers | script.js:150-156 | the summary and title lines are always printed |
| EprLog.StaffMembers | script.js:158-175 | section 1 prints the senior-aware and frail lines only when ticked, the rest always |
| EprLog.AssessmentMembers | script.js:177-225 | section 2 prints the airway, contraindication and consent-notes lines only when something is recorded, the rest always |
| EprLog.PlanMembers | script.js:227-247 | section 3 prints the SOAP-ME and AAGBI lines only when ticked, the rest always |
| EprLog.DrugLayoutMembers | script.js:252-264 | the "no drugs" line exactly for an empty table; otherwise the heading and one line per row |
| EprLog.ObsLayoutMembers | script.js:266-280 | the observation heading whenever the table has rows, and a line for each row with a vital |
| EprLog.NotesMembers | script.js:283-288 | complications and notes lines only when written; the spacer always |
| EprLog.IntraMembers | script.js:249-288 | section 4 prints exactly the stamp line, the table lines and the written notes |
| EprLog.OutcomeMembers | script.js:290-312 | section 5 prints the instructions and sign-off lines only when recorded, the rest always |
| EprLog.LayoutMembers | script.js:150-312 | the record's lines are exactly the printed ones, line by line |
| EprLog.RecordLines | script.js:124-314 | for any form and tables, a line is in the record exactly when its condition on them holds |
| EprLog.ShownConditions | script.js:179-308 | each optional checklist line is printed exactly when a box of its list is ticked (for the airway line, or a grade is selected) |
| EprLog.DrugLineSaysMg | script.js:260 | every drug line says "mg", even for a drug totalled in mcg |
| EprLog.CapacityText | script.js:204 | the capacity line shows the selected answer, and "Yes" when none is selected |
| EprLog.ChecklistPlaceholder | script.js:242-247 | an always-printed checklist shows its placeholder exactly when nothing is ticked, and otherwise the ticked items |
| EprLog.RenderConcat | script.js:128 | the text of two runs of lines is the concatenation of their texts |
| EprLog.DrugTextRendersLayout | script.js:254-261 | the drug loop's text is the text of the drug lines |
| EprLog.ObsTextRendersLayout | script.js:269-279 | the observation loop's text is the text of the observation lines |
| EprLog.RenderDrugLines | script.js:252-264 | the drug-table loop appends exactly the drug part of the record |
| EprLog.RenderObsLines | script.js:266-280 | the observation loop appends exactly the observation part, skipping rows without vitals |
| EprLog.LogSplit | script.js:150-312 | the record is the front text, what the two loops append, and the back text |
| EprLog.ComposeLog | script.js:124-318 | the composer with its loops produces exactly the record the layout describes |
| DoseAdvisor.Min | script.js:427 | the minimum is one of the two and no larger than either |
| DoseAdvisor.PerKg | script.js:416-429 | a per-kilogram range runs upwards for a non-negative weight |
| DoseAdvisor.AdviceFor | script.js:414-429 | the midazolam range starts at 1 mg and is capped at 2 mg, reached exactly from 40 kg |
| DoseAdvisor.FrailHalvesPropofol | script.js:416-419 | the frail propofol range is half the adult one |
| DoseAdvisor.AdviceMonotone | script.js:416-429 | every figure is non-decreasing in the weight |
| DoseAdvisor.RangesOrdered | script.js:416-427 | the ranges run upwards for non-negative weights, except midazolam's, which does so exactly from 20 kg |
| DoseAdvisor.CalculateDoses | script.js:411-414 | no advice exactly when the weight is unreadable or zero; otherwise the advice for that weight and frailty |
| DoseAdvisor.MissingWeight | script.js:412-413 | an empty weight gives no advice |
| DoseAdvisor.NegativeWeightAdvised | script.js:412-413 | a weight of "-5" is advised on as -5 kg |
| Letter.DrugsLine | script.js:328-334 | the drugs line names each distinct trimmed drug once, in order of first use, and says "Sedation" only for an empty table |
| Letter.AnyName | script.js:348-349 | `some` holds exactly when some name satisfies the test |
| Letter.EffectListMembers | script.js:345-360 | the advice starts with drowsiness and amnesia and ends with the cannula advice; dreams only with ketamine; the opioid nausea line exactly with an opioid, the plain one exactly without |
| Letter.GivenNames | script.js:348-349 | testing the de-duplicated names is testing the table's rows |
| Letter.EffectLines | script.js:345-360 | the letter's advice depends on whether a ketamine and whether an opioid appears in the drug table |
| Letter.ParseInt | script.js:369 | text without a digit reads as NaN |
| Letter.ParseIntNat | script.js:369 | a rendered number parses back to itself |
| Letter.SetClock | script.js:369 | setting the clock gives the moment that many hours and minutes after the day's midnight, carried across days |
| Letter.Expiry | script.js:372 | the expiry is the same minute of the next day, and invalid exactly when the start is |
| Letter.StampedTime | script.js:362-372 | an "HH:MM" time sets today's clock to it, and the letter runs until that time tomorrow |
| Letter.StampMoment | script.js:367-370 | an "HH:MM" time is the clock set to its hours and minutes |
| Letter.SetClockSameDay | script.js:369 | a time within the day stays on the same day |
| Letter.StampParts | script.js:367-369 | an "HH:MM" time splits into two parts that read back as its hours and minutes |
| Letter.SplitStamp | script.js:367 | two colon-free parts joined by ':' split back into them |
| Letter.ParseTwoDigits | script.js:369 | two padded digits parse back to their number |
| Letter.LetterOf | script.js:321-379 | the letter's validity ends 24 hours after its start |
| Letter.LetterPlaceholders | script.js:325-326 | a missing patient name prints as 22 underscores and a missing procedure as "Procedure"; entered text is printed as it is |
| Letter.WindowFromProcedureEnd | script.js:362-379 | with a procedure-end time, the window runs from it today to the same time tomorrow, whatever the sign-off time |
| Timer.ClockTextValue | script.js:478 | the display is HH:MM:SS whose parts add up to the count modulo one day |
| Timer.Tick | script.js:476-481 | one firing adds a second and raises the reminder when the count reaches a multiple of 300, never lowering it |
| Timer.Ticks | script.js:476-481 | the timer stays running over any number of firings |
| Timer.TicksEffect | script.js:476-481 | after n firings the count grew by n, and the reminder shows exactly if it showed before or a five-minute mark was passed |
| Timer.TicksReminder | script.js:476-481 | over n firings the reminder accumulates the five-minute marks reached |
| Timer.RaisedWithin | script.js:480 | some count on the way is a multiple of 300 exactly when the number of whole five-minute periods grew |
| Timer.MultipleStep | script.js:480 | a count is a multiple of 300 exactly when its period number goes up by one |
| Timer.FirstReminder | script.js:473-480 | from zero, the reminder first shows after 300 firings |
| Timer.Stop | script.js:484-490 | stopping clears the interval and hides the reminder, keeping the count |
| Timer.Dismiss | script.js:494 | dismissing hides the reminder and changes nothing else |
| Timer.Start | script.js:476 | starting sets the interval and keeps the count and reminder |
| Timer.TimerButton | script.js:457-466 | a running timer is stopped; a stopped one is refused exactly when the time-out is incomplete and the warning declined |
| Timer.RestartSeedsNoRow | script.js:473 | a restarted timer seeds no new observation row and resumes its count |
| Snapshot.AsText | script.js:48 | a stored string is written back into a text field as it is |
| Snapshot.FreshPage | script.js:7-8 | the page starts with empty tables and a stopped timer at zero |
| Snapshot.SaveKey | script.js:15-17 | a field is saved under a non-empty field key |
| Snapshot.Serialised | script.js:21 | a serialised observation row keeps its label and loses its vitals |
| Snapshot.SerialisedRows | script.js:21 | every observation row is serialised, in order |
| Snapshot.PageEntries | script.js:20-30 | the page's own entries use only the page's own keys |
| Snapshot.CaptureSlot | script.js:20-30 | every page slot is stored, with the page's value, whatever the form holds |
| Snapshot.FieldEntriesFrom | script.js:13-19 | a key is stored exactly when some saved field has it, holding such a field's entry |
| Snapshot.FieldEntryOf | script.js:13-19 | with distinct keys, every saved field's entry is stored under its key |
| Snapshot.CaptureFields | script.js:11-31 | a field key is in the record exactly when a saved field owns it, holding `true` for a box and the value for a text field |
| Snapshot.RestoreField | script.js:42-49 | a restored field keeps its kind, id and name; boxes are only ever ticked; text fields only get a value |
| Snapshot.RestoreFields | script.js:42-50 | every element is restored in place, in order |
| Snapshot.Blank | script.js:42-50 | the served form has nothing ticked and keeps each element's identity |
| Snapshot.Admitted | script.js:52-74 | `if (data[k])` admits exactly a present, truthy value |
| Snapshot.RestoreStamp | script.js:60-74 | a stamp is restored with its button disabled when the record holds a time; a disabled button stays disabled |
| Snapshot.RestorePage | script.js:52-74 | loading never sets the timer running, never hides the dose panel and never re-enables a stamp button |
| Snapshot.FieldRoundTrip | script.js:13-49 | with distinct keys, a checkbox with an id, a radio without one and a text field with an id come back as saved |
| Snapshot.CheckboxWithoutIdLost | script.js:15-44 | a ticked checkbox without an id is saved but never restored |
| Snapshot.RadioWithIdLost | script.js:15-46 | a ticked radio with an id is saved under its id but restored unticked |
| Snapshot.PageRoundTrip | script.js:20-74 | loading a saved record gives the page the saved tables, panel, timer and stamps, field by field |
| Snapshot.RestoreSlots | script.js:52-74 | loading a record saved from a page restores its slots as the reference reload says |
| Snapshot.RestoreTables | script.js:52-55 | the tables and dose panel are restored from non-empty saves |
| Snapshot.RestoreTimer | script.js:57-58 | the display and a non-zero count are restored; the running flag is not |
| Snapshot.RestoreStamps | script.js:60-74 | each stamp holding a time is restored with its button disabled |
| Snapshot.FreshReload | script.js:36-80 | a reload brings the whole page back except the observation vitals, with the timer stopped |
| Page.DrugEntry | script.js:526-540 | a row is added exactly when a drug is named and a dose given; it holds the clock, name, dose and sedationist |
| Page.FormPage.constructor | script.js:7-8 | the page starts fresh, with the timer stopped at zero and no log yet |
| Page.FormPage.GenerateLog | script.js:124-314 | the log is recomposed from the current form, tables and stamps |
| Page.FormPage.SaveState | script.js:11-34 | the stored record is that of the current fields and page, and the log is recomposed |
| Page.FormPage.ToggleCapacity | script.js:91-104 | the capacity panels follow the capacity radios |
| Page.FormPage.CheckAsaAlert | script.js:108-118 | the ASA alert shows exactly for grades III, IV and V |
| Page.FormPage.LoadState | script.js:36-80 | with no record nothing changes; otherwise every element and the page are restored from it, the panels recomputed and the timer left stopped |
| Page.FormPage.RestoreRest | script.js:52-74 | the page's own state becomes the restored page |
| Page.FormPage.RestoreTables | script.js:52-55 | the tables and dose panel are restored, nothing else |
| Page.FormPage.RestoreTimer | script.js:57-58 | the display and count are restored, nothing else |
| Page.FormPage.RestoreStamps | script.js:60-74 | the three stamps are restored, nothing else |
| Page.FormPage.Tick | script.js:476-481 | one firing advances the timer, shows its clock text and saves nothing |
| Page.FormPage.DismissReminder | script.js:494 | dismissing hides the reminder and changes nothing else |
| Page.FormPage.AddObsRow | script.js:508-524 | a row labelled with the elapsed time and clock is appended and the page saved |
| Page.FormPage.StartTimer | script.js:468-482 | a row is seeded only from zero, the page is saved as stopped, then the timer runs; the drug table, display, advice, stamps, capacity and alert are unchanged |
| Page.FormPage.StopTimer | script.js:484-492 | the timer stops, the reminder hides and the page is saved; everything else is unchanged |
| Page.FormPage.PressTimerButton | script.js:457-466 | the button stops, starts or does nothing, as the time-out and the user's answer decide, with each branch's unchanged state stated |
| Page.FormPage.PressStamp | script.js:496-504 | a live stamp button shows the clock, disables itself and saves; the other stamps are untouched; a disabled one does nothing; the tables, advice, timer, capacity and alert are unchanged |
| Page.FormPage.AddDrug | script.js:526-545 | the drug row is appended and the page saved exactly when a name and a dose were given; everything else is unchanged |
| Page.FormPage.CalculateDoses | script.js:411-446 | a usable weight shows the advice and saves, leaving the rest of the page unchanged; otherwise nothing changes |

## Left out

- **The DOM itself:** classes, `innerHTML` markup and styling. Table cells are
  rows of strings, the dose panel is the advice it shows, and the styled spans of
  the log are kept as plain tags. A new drug row's name, dose and sedationist cells
  (script.js:538-540) are written into `innerHTML` unescaped; the model keeps each
  as the text typed, so markup typed into any of them is not interpreted.
- **`localStorage`:** the store is one optional record. A record that fails to
  parse as JSON is not modelled, nor is the page reload of the clear-form button.
- **`setInterval` scheduling:** each firing is one call of `FormPage.Tick`, which
  requires a running timer. The clearing of the interval is the running flag.
- **The prompt modal, the copy-to-clipboard button, printing, `alert` and
  `confirm`:**
  - the modal's answers and the user's confirmation are parameters;
  - the other effects have no state the record uses.
- **`Date` and locale formatting:** the clock text, today's date and the current
  moment are parameters. Time zones and daylight saving are not modelled.
- **Number formatting:**
  - `DoseAdvisor.AdviceFor` keeps exact figures; the rounding `toFixed` applies
    for display is not modelled.
  - JavaScript's rendering of a total is a parameter.
- **`Ledger.AddDose` and `Ledger.SumFor`:** they add doses as exact reals.
  JavaScript adds IEEE doubles, so doses of "0.1" and "0.2" total
  `0.30000000000000004mg` on the page but 0.3 in the model. The totals are exact
  sums of the parsed doses, not the rounded sums the browser shows.
- **Exotic `parseFloat` and `parseInt` inputs:** exponents, `Infinity`, hexadecimal
  and non-ASCII white space or digits.
- **`Text.Lower`:** it folds only A-Z, not the whole of Unicode.
- **`Object.entries` order for numeric-looking drug names:** JavaScript lists
  integer-like keys first. The model keeps insertion order.
- **Field ids equal to one of the ten page keys:** such a field's entry would be
  overwritten by the page's own. Field keys and page keys are disjoint in the model.
- **`Snapshot.RestorePage`:** a value under a page key that is not of the kind the
  page wrote (say, a flag where a table was stored) is ignored rather than written
  into the element.
- **Radio-group exclusivity:** ticking a radio in the browser unticks its group.
  `Snapshot.RestoreField` only ticks, as the load loop's own writes do. So if a
  radio was served ticked and the record ticks another of its group,
  `Page.FormPage.LoadState` leaves both ticked in the model. `Form.CheckedRadio`,
  `Page.FormPage.ToggleCapacity` and `Form.AsaGradeText` then read the first in
  document order, while the browser would report the restored one.
  `Snapshot.Blank` takes the form as served with nothing ticked.
- **The rows' remove buttons:** their inline handlers call a `saveState` that is not
  global. The per-row score select is also left out.
- **The form's `input`/`change` listener:** editing a field is not a method of the
  page. Every handler that saves is modelled.
- **An empty table's leftover white-space markup:** after rows are removed it would
  be truthy in the record. The model stores tables as rows, so an empty table is
  falsy.
- **`Page.FormPage.Log`:** the log element is kept as the source it was composed
  from. Its text is `EprLog.EprLog` of that source.
- **`Page.FormPage.LoadState`:** the formatting of dates and numbers is fixed for
  the page's life (`date` and `show` are constants of the page).
- **`Snapshot.AsText`:** it states only that a stored string is written back as it
  is. The renderings of the other values follow JavaScript's string conversion and
  are not claimed further.
- **`Text.Pad2`:** its value is stated separately by `Text.Pad2Value`. The
  `ClockText` display has no contract of its own; `Timer.ClockTextValue` states it.
