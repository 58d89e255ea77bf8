// The dose calculator: initial bolus ranges that scale with the patient's
// weight, read from the weight field and the frailty box. Figures are kept
// exact; the rounding `toFixed` applies for display is not part of the model.
module DoseAdvisor {
  import opened Text
  import opened Form
  import opened Ledger

  /** A dose range: its lower and upper bound. */
  datatype Range = Range(low: real, high: real)

  /** What the advice panel shows for one weight: propofol, ketamine and midazolam
      in mg, the fentanyl ceiling in mcg. */
  datatype Advice = Advice(
    frail: bool, propofol: Range, ketamineDissociative: Range, ketamineAnalgesic: Range,
    midazolam: Range, fentanylMax: real)

  function Min(a: real, b: real): (r: real)
    ensures r <= a && r <= b && (r == a || r == b)
  {
    if a <= b then a else b
  }

  /** The range given by per-kilogram rates for weight `w`. */
  function PerKg(lowRate: real, highRate: real, w: real): (r: Range)
    ensures w >= 0.0 && lowRate <= highRate ==> r.low <= r.high
  {
    Range(lowRate * w, highRate * w)
  }

  /** The advisor's figures for weight `w` in kg: propofol 0.25-0.5 mg/kg when frail and
      0.5-1.0 mg/kg otherwise, ketamine 1-2 mg/kg (dissociative) and 0.3-0.5 mg/kg
      (analgesic), midazolam from 1 mg up to 0.05 mg/kg capped at 2 mg, fentanyl up to 0.5 mcg/kg. */
  function AdviceFor(w: real, frail: bool): (a: Advice)
    ensures a.frail == frail
    ensures a.midazolam.low == 1.0 && a.midazolam.high <= 2.0
    ensures a.midazolam.high == 2.0 <==> w >= 40.0
  {
    Advice(
      frail := frail,
      propofol := if frail then PerKg(0.25, 0.5, w) else PerKg(0.5, 1.0, w),
      ketamineDissociative := PerKg(1.0, 2.0, w),
      ketamineAnalgesic := PerKg(0.3, 0.5, w),
      midazolam := Range(1.0, Min(2.0, 0.05 * w)),
      fentanylMax := 0.5 * w)
  }

  /** The frail propofol range is half the adult one. */
  lemma FrailHalvesPropofol(w: real)
    ensures AdviceFor(w, true).propofol.low * 2.0 == AdviceFor(w, false).propofol.low
    ensures AdviceFor(w, true).propofol.high * 2.0 == AdviceFor(w, false).propofol.high
  {
  }

  /** Every figure is non-decreasing in the weight. */
  lemma AdviceMonotone(w1: real, w2: real, frail: bool)
    requires w1 <= w2
    ensures var a, b := AdviceFor(w1, frail), AdviceFor(w2, frail);
      && a.propofol.low <= b.propofol.low && a.propofol.high <= b.propofol.high
      && a.ketamineDissociative.low <= b.ketamineDissociative.low
      && a.ketamineDissociative.high <= b.ketamineDissociative.high
      && a.ketamineAnalgesic.low <= b.ketamineAnalgesic.low
      && a.ketamineAnalgesic.high <= b.ketamineAnalgesic.high
      && a.midazolam.low <= b.midazolam.low && a.midazolam.high <= b.midazolam.high
      && a.fentanylMax <= b.fentanylMax
  {
  }

  /** For a non-negative weight every range runs upwards, except midazolam's: its upper
      bound falls below the fixed 1 mg lower bound for any weight under 20 kg. */
  lemma RangesOrdered(w: real, frail: bool)
    requires w >= 0.0
    ensures var a := AdviceFor(w, frail);
      && a.propofol.low <= a.propofol.high
      && a.ketamineDissociative.low <= a.ketamineDissociative.high
      && a.ketamineAnalgesic.low <= a.ketamineAnalgesic.high
      && (a.midazolam.low <= a.midazolam.high <==> w >= 20.0)
  {
  }

  /** The calculate button: `parseFloat` of the weight field; no weight, an unreadable one
      or zero gives no advice (the page only alerts), any other number, negative ones
      included, gives the advice for that weight and the frailty box. */
  function CalculateDoses(form: seq<Field>): (r: Option<Advice>)
    ensures r.None? <==> ParseFloat(Val(form, "weight")) == None || ParseFloat(Val(form, "weight")) == Some(0.0)
    ensures r.Some? ==> r.value == AdviceFor(ParseFloat(Val(form, "weight")).value, IsChecked(form, "frail-elderly"))
  {
    match ParseFloat(Val(form, "weight"))
    case None => None
    case Some(w) => if w == 0.0 then None else Some(AdviceFor(w, IsChecked(form, "frail-elderly")))
  }

  /** An empty weight field gives no advice. */
  lemma MissingWeight(form: seq<Field>)
    requires Val(form, "weight") == ""
    ensures CalculateDoses(form) == None
  {
  }

  /** A negative weight is not refused: "-5" is read as -5 kg and advised on. */
  lemma NegativeWeightAdvised(form: seq<Field>)
    requires Val(form, "weight") == "-5"
    ensures CalculateDoses(form) == Some(AdviceFor(-5.0, IsChecked(form, "frail-elderly")))
  {
    var s := "-5";
    assert TrimStart(s) == s;
    var u := s[1..];
    assert u == "5";
    assert DigitRun(u) == 1;
    assert u[..1] == "5";
    assert DigitsValue(u[..1]) == 5;
  }
}
