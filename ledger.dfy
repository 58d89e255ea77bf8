// The two row tables (drugs given, observations), the lenient number
// parsing used for doses and weight, the per-drug totals of the log's
// summary line, and the label a new observation row receives.
module Ledger {
  import opened Text

  /** A row of the drug table: time stamp, drug name, dose as typed, and who recorded it. */
  datatype DrugRow = DrugRow(time: string, name: string, dose: string, recordedBy: string)

  /** A row of the observation table: its time label and the four vitals as typed. */
  datatype ObsRow = ObsRow(time: string, hr: string, bp: string, spo2: string, rr: string)

  // ---------------------------------------------------------------- parseFloat

  /** The number of leading decimal digits of `s`. */
  function DigitRun(s: string): (n: nat)
    ensures n <= |s|
    ensures forall i :: 0 <= i < n ==> IsDigit(s[i])
    ensures n == |s| || !IsDigit(s[n])
    decreases |s|
  {
    if s != "" && IsDigit(s[0]) then 1 + DigitRun(s[1..]) else 0
  }

  function Pow10(n: nat): (p: nat)
    ensures p >= 1
  {
    if n == 0 then 1 else 10 * Pow10(n - 1)
  }

  /** The value of the digits after a decimal point: `0.d`, each digit worth a tenth
      of the one before it. */
  function Fraction(d: string): real
    decreases |d|
  {
    if d == "" then 0.0 else (DigitValue(d[0]) as real + Fraction(d[1..])) / 10.0
  }

  /** Digits after a point make a fraction in [0, 1). */
  lemma {:induction false} FractionRange(d: string)
    requires AllDigits(d)
    ensures 0.0 <= Fraction(d) < 1.0
    decreases |d|
  {
    if d != "" {
      assert AllDigits(d[1..]);
      FractionRange(d[1..]);
    }
  }

  /** An unsigned decimal literal at the start of `t`: digits, optionally a point
      and more digits, with at least one digit in all. */
  function ParseUnsigned(t: string): (r: Option<real>)
    ensures r.Some? ==> r.value >= 0.0
  {
    var i := DigitRun(t);
    if i < |t| && t[i] == '.' then PointValue(t, i)
    else if i == 0 then None
    else Some(DigitsValue(t[..i]) as real)
  }

  /** The literal whose `i` leading digits are followed by a point at `t[i]`: the
      digits after the point are its fraction, and a lone point reads as nothing. */
  function PointValue(t: string, i: nat): (r: Option<real>)
    requires i < |t| && AllDigits(t[..i])
    ensures r.Some? ==> r.value >= 0.0
  {
    var f := DigitRun(t[i + 1..]);
    FractionRange(t[i + 1..i + 1 + f]);
    if i == 0 && f == 0 then None
    else Some(DigitsValue(t[..i]) as real + Fraction(t[i + 1..i + 1 + f]))
  }

  /** `parseFloat`: leading white space skipped, an optional sign, then the longest
      decimal prefix; None stands for NaN. */
  function ParseFloat(s: string): (r: Option<real>)
    ensures (forall i :: 0 <= i < |s| ==> !IsDigit(s[i])) ==> r.None?
  {
    TrimStartSuffix(s);
    var t := TrimStart(s);
    if t != "" && (t[0] == '-' || t[0] == '+') then
      match ParseUnsigned(t[1..])
      case None => None
      case Some(v) => Some(if t[0] == '-' then -v else v)
    else ParseUnsigned(t)
  }

  /** `parseFloat(dose) || 0`: what a row adds to its drug's total. */
  function DoseValue(r: DrugRow): real
  {
    match ParseFloat(r.dose)
    case None => 0.0
    case Some(v) => v
  }

  /** Every character is a decimal digit. */
  predicate AllDigits(s: string)
  {
    forall i :: 0 <= i < |s| ==> IsDigit(s[i])
  }

  /** Digits followed by a non-digit: the digit run is exactly those digits. */
  lemma DigitRunOf(w: string, rest: string)
    requires AllDigits(w)
    requires rest == "" || !IsDigit(rest[0])
    ensures DigitRun(w + rest) == |w| && (w + rest)[..|w|] == w
  {
    var s := w + rest;
    assert forall i :: 0 <= i < |w| ==> s[i] == w[i];
    assert |w| < |s| ==> s[|w|] == rest[0];
  }

  /** A whole number followed by neither a digit nor a point reads as that number. */
  lemma ParseUnsignedWhole(w: string, rest: string)
    requires AllDigits(w) && w != ""
    requires rest == "" || (!IsDigit(rest[0]) && rest[0] != '.')
    ensures ParseUnsigned(w + rest) == Some(DigitsValue(w) as real)
  {
    DigitRunOf(w, rest);
    assert |w| < |w + rest| ==> (w + rest)[|w|] == rest[0];
  }

  /** What `ParseUnsigned` reads when the digit run stops at a point. */
  /** Digits then a point: the literal is read by `PointValue`. */
  lemma ParseUnsignedPoint(t: string)
    requires DigitRun(t) < |t| && t[DigitRun(t)] == '.'
    ensures ParseUnsigned(t) == PointValue(t, DigitRun(t))
  {
  }

  /** A point followed by its digit run reads as the whole part plus that run as a
      fraction. */
  lemma PointValueRun(t: string, i: nat)
    requires i < |t| && AllDigits(t[..i]) && i + DigitRun(t[i + 1..]) > 0
    ensures PointValue(t, i)
      == Some(DigitsValue(t[..i]) as real + Fraction(t[i + 1..i + 1 + DigitRun(t[i + 1..])]))
  {
  }

  /** Whole digits `w`, then a point whose following digit run is `d`: `d` is added
      to `w` as a fraction. */
  lemma PointValueOf(t: string, w: string, d: string)
    requires |w| < |t| && t[..|w|] == w && AllDigits(w)
    requires DigitRun(t[|w| + 1..]) == |d| && |w| + 1 + |d| <= |t| && t[|w| + 1..|w| + 1 + |d|] == d
    requires |w| + |d| > 0
    ensures PointValue(t, |w|) == Some(DigitsValue(w) as real + Fraction(d))
  {
    PointValueRun(t, |w|);
    assert DigitsValue(t[..|w|]) == DigitsValue(w);
    assert Fraction(t[|w| + 1..|w| + 1 + DigitRun(t[|w| + 1..])]) == Fraction(d);
  }

  /** `w.d` followed by a non-digit reads as the whole part plus the digits after the
      point scaled down by their number of places; either part may be empty, not both. */
  lemma ParseUnsignedDecimal(w: string, d: string, rest: string)
    requires AllDigits(w) && AllDigits(d) && |w| + |d| > 0
    requires rest == "" || !IsDigit(rest[0])
    ensures ParseUnsigned(w + "." + d + rest)
      == Some(DigitsValue(w) as real + Fraction(d))
  {
    var after := "." + d + rest;
    var t := w + after;
    assert w + "." + d + rest == t;
    DigitRunOf(w, after);
    assert t[|w| + 1..] == d + rest;
    DigitRunOf(d, rest);
    ParseUnsignedPoint(t);
    PointValueOf(t, w, d);
  }

  /** After white space, a sign character is read as the sign of the unsigned number
      that follows it. */
  lemma ParseFloatSignChar(s: string, body: string)
    requires TrimStart(s) != "" && (TrimStart(s)[0] == '-' || TrimStart(s)[0] == '+')
    requires TrimStart(s)[1..] == body
    ensures ParseFloat(s) ==
      match ParseUnsigned(body)
      case None => None
      case Some(v) => Some(if TrimStart(s)[0] == '-' then -v else v)
  {
  }

  /** After white space, text that starts with a digit or a point is read unsigned. */
  lemma ParseFloatNoSign(s: string)
    requires TrimStart(s) == "" || IsDigit(TrimStart(s)[0]) || TrimStart(s)[0] == '.'
    ensures ParseFloat(s) == ParseUnsigned(TrimStart(s))
  {
  }

  /** `parseFloat` skips leading white space, reads an optional sign, and negates the
      unsigned number that follows for a '-'. */
  lemma ParseFloatSigned(ws: string, sign: string, body: string)
    requires forall i :: 0 <= i < |ws| ==> IsWhitespace(ws[i])
    requires sign == "" || sign == "-" || sign == "+"
    requires body == "" || IsDigit(body[0]) || body[0] == '.'
    ensures ParseFloat(ws + sign + body) ==
      match ParseUnsigned(body)
      case None => None
      case Some(v) => Some(if sign == "-" then -v else v)
  {
    var s := ws + sign + body;
    assert s == ws + (sign + body);
    TrimStartOf(ws, sign + body);
    if sign != "" {
      assert (sign + body)[1..] == body;
      ParseFloatSignChar(s, body);
    } else {
      assert sign + body == body;
      ParseFloatNoSign(s);
    }
  }

  /** A rendered whole number reads back as itself. */
  lemma ParseFloatNat(n: nat)
    ensures ParseFloat(NatToString(n)) == Some(n as real)
  {
    var s := NatToString(n);
    assert "" + "" + s == s;
    ParseFloatSigned("", "", s);
    assert s + "" == s;
    ParseUnsignedWhole(s, "");
    NatToStringRoundTrip(n);
  }

  /** A dose typed with leading space and a unit after it reads as its number. */
  lemma ParseFloatDoseText()
    ensures ParseFloat(" 2.5mg") == Some(2.5)
  {
    var body := "2" + "." + "5" + "mg";
    assert AllDigits("2") && AllDigits("5");
    ParseUnsignedDecimal("2", "5", "mg");
    ParseFloatSigned(" ", "", body);
    assert " 2.5mg" == " " + "" + body;
  }

  /** A negative dose without a whole part reads as a negative fraction. */
  lemma ParseFloatNegativeFraction()
    ensures ParseFloat("-.5") == Some(-0.5)
  {
    var body := "" + "." + "5" + "";
    assert AllDigits("5");
    ParseUnsignedDecimal("", "5", "");
    ParseFloatSigned("", "-", body);
    assert "-.5" == "" + "-" + body;
  }

  // ---------------------------------------------------------- distinct names

  function FirstIndex(xs: seq<string>, x: string): (r: nat)
    requires x in xs
    ensures r < |xs| && xs[r] == x
    ensures forall j :: 0 <= j < r ==> xs[j] != x
  {
    if xs[0] == x then 0 else 1 + FirstIndex(xs[1..], x)
  }

  lemma FirstIndexInPrefix(xs: seq<string>, n: nat, x: string)
    requires n <= |xs| && x in xs[..n]
    ensures FirstIndex(xs, x) == FirstIndex(xs[..n], x)
  {
    var k := FirstIndex(xs[..n], x);
    assert xs[k] == x;
  }

  /** The distinct elements of `xs` in order of first occurrence, as collecting
      them into a JavaScript `Set` and back into an array gives them. */
  function Distinct(xs: seq<string>): (r: seq<string>)
    ensures forall x :: x in r <==> x in xs
    ensures forall i, j :: 0 <= i < j < |r| ==> r[i] != r[j]
    ensures forall i, j :: 0 <= i < j < |r| ==> FirstIndex(xs, r[i]) < FirstIndex(xs, r[j])
    decreases |xs|
  {
    if xs == [] then []
    else
      var p := xs[..|xs| - 1];
      var x := xs[|xs| - 1];
      var d := Distinct(p);
      assert forall y :: y in d ==> FirstIndex(xs, y) == FirstIndex(p, y) by {
        forall y | y in d {
          FirstIndexInPrefix(xs, |xs| - 1, y);
        }
      }
      if x in d then d else d + [x]
  }

  // ------------------------------------------------------------ drug totals

  /** A drug name with an amount: one row's dose as the totals loop reads it, or
      one entry of the running totals. */
  datatype Total = Total(name: string, amount: real)

  function TotalNames(ts: seq<Total>): (r: seq<string>)
    ensures |r| == |ts|
    ensures forall k :: 0 <= k < |ts| ==> r[k] == ts[k].name
  {
    if ts == [] then [] else TotalNames(ts[..|ts| - 1]) + [ts[|ts| - 1].name]
  }

  /** A row as the totals loop reads it: the trimmed name and `parseFloat(dose) || 0`. */
  function Dose(row: DrugRow): Total
  {
    Total(Trim(row.name), DoseValue(row))
  }

  /** Each row as the totals loop reads it. */
  function Doses(rows: seq<DrugRow>): (r: seq<Total>)
    ensures |r| == |rows|
    ensures forall i :: 0 <= i < |rows| ==> r[i] == Dose(rows[i])
  {
    if rows == [] then [] else Doses(rows[..|rows| - 1]) + [Dose(rows[|rows| - 1])]
  }

  /** The trimmed drug names, row by row. */
  function Names(rows: seq<DrugRow>): (r: seq<string>)
    ensures |r| == |rows|
    ensures forall i :: 0 <= i < |rows| ==> r[i] == Trim(rows[i].name)
  {
    TotalNames(Doses(rows))
  }

  function IndexOf(ts: seq<Total>, name: string): (r: Option<nat>)
    ensures r.Some? ==> r.value < |ts| && ts[r.value].name == name
    ensures r.None? ==> forall k :: 0 <= k < |ts| ==> ts[k].name != name
    decreases |ts|
  {
    if ts == [] then None
    else if ts[0].name == name then Some(0)
    else match IndexOf(ts[1..], name)
      case None => None
      case Some(k) => Some(k + 1)
  }

  /** One step of the totals loop: start the drug at 0 if it is new, then add the dose. */
  function AddDose(ts: seq<Total>, name: string, dose: real): seq<Total>
  {
    match IndexOf(ts, name)
    case None => ts + [Total(name, dose)]
    case Some(k) => ts[k := Total(name, ts[k].amount + dose)]
  }

  /** The totals object after the loop over the doses `ds`, entries in insertion order. */
  function Totals(ds: seq<Total>): seq<Total>
  {
    if ds == [] then []
    else AddDose(Totals(ds[..|ds| - 1]), ds[|ds| - 1].name, ds[|ds| - 1].amount)
  }

  /** The per-drug totals of the drug table. */
  function DrugTotals(rows: seq<DrugRow>): seq<Total>
  {
    Totals(Doses(rows))
  }

  /** The reference definition of a total: every dose recorded under exactly `name`, summed. */
  function SumFor(ds: seq<Total>, name: string): real
  {
    if ds == [] then 0.0
    else SumFor(ds[..|ds| - 1], name) + (if ds[|ds| - 1].name == name then ds[|ds| - 1].amount else 0.0)
  }

  lemma {:induction false} SumForAbsent(ds: seq<Total>, name: string)
    requires name !in TotalNames(ds)
    ensures SumFor(ds, name) == 0.0
  {
    if ds != [] {
      var p := ds[..|ds| - 1];
      assert TotalNames(p) == TotalNames(ds)[..|p|];
      SumForAbsent(p, name);
    }
  }

  predicate DistinctNames(ts: seq<Total>)
  {
    forall i, j :: 0 <= i < j < |ts| ==> ts[i].name != ts[j].name
  }

  /** What one step of the loop does to the entries: a new name is appended,
      a known name keeps its place, and only that name's amount grows by `dose`. */
  lemma AddDoseEffect(ts: seq<Total>, name: string, dose: real)
    requires DistinctNames(ts)
    ensures var r := AddDose(ts, name, dose);
      && (name in TotalNames(ts) ==> TotalNames(r) == TotalNames(ts))
      && (name !in TotalNames(ts) ==> TotalNames(r) == TotalNames(ts) + [name])
      && forall k :: 0 <= k < |r| ==>
           r[k].amount == (if k < |ts| then ts[k].amount else 0.0) + (if r[k].name == name then dose else 0.0)
  {
    var r := AddDose(ts, name, dose);
    match IndexOf(ts, name)
    case None =>
      assert TotalNames(r) == TotalNames(ts) + [name];
    case Some(k) =>
      assert TotalNames(r) == TotalNames(ts);
  }

  /** The totals hold each name once, and exactly the names of the doses. */
  lemma {:induction false} TotalsDistinct(ds: seq<Total>)
    ensures DistinctNames(Totals(ds))
    ensures forall x :: x in TotalNames(Totals(ds)) <==> x in TotalNames(ds)
  {
    if ds != [] {
      var p := ds[..|ds| - 1];
      TotalsDistinct(p);
      assert TotalNames(ds) == TotalNames(p) + [ds[|ds| - 1].name];
      AddDoseEffect(Totals(p), ds[|ds| - 1].name, ds[|ds| - 1].amount);
    }
  }

  /** The totals name each distinct drug once, in order of first administration. */
  lemma {:induction false} TotalsNames(ds: seq<Total>)
    ensures TotalNames(Totals(ds)) == Distinct(TotalNames(ds))
    ensures DistinctNames(Totals(ds))
  {
    if ds != [] {
      var p := ds[..|ds| - 1];
      TotalsNames(p);
      assert TotalNames(ds)[..|ds| - 1] == TotalNames(p);
      AddDoseEffect(Totals(p), ds[|ds| - 1].name, ds[|ds| - 1].amount);
    }
  }

  /** Each total is the sum of that drug's doses (the reference definition `SumFor`). */
  lemma {:induction false} TotalsAreSums(ds: seq<Total>)
    ensures forall k :: 0 <= k < |Totals(ds)| ==> Totals(ds)[k].amount == SumFor(ds, Totals(ds)[k].name)
  {
    if ds != [] {
      var p, last := ds[..|ds| - 1], ds[|ds| - 1];
      TotalsAreSums(p);
      assert ds == p + [last];
      forall k | 0 <= k < |Totals(ds)|
        ensures Totals(ds)[k].amount == SumFor(ds, Totals(ds)[k].name)
      {
        TotalAfterDose(p, last, k);
      }
    }
  }

  /** After one more dose, each total is still its drug's reference sum. */
  lemma TotalAfterDose(p: seq<Total>, last: Total, k: nat)
    requires forall j :: 0 <= j < |Totals(p)| ==> Totals(p)[j].amount == SumFor(p, Totals(p)[j].name)
    requires k < |Totals(p + [last])|
    ensures Totals(p + [last])[k].amount == SumFor(p + [last], Totals(p + [last])[k].name)
  {
    TotalsDistinct(p);
    var ds := p + [last];
    var n, d := last.name, last.amount;
    var tp := Totals(p);
    var t := AddDose(tp, n, d);
    assert t == Totals(ds) by {
      assert ds[..|ds| - 1] == p;
    }
    AddDoseEffect(tp, n, d);
    var m := t[k].name;
    assert SumFor(ds, m) == SumFor(p, m) + (if n == m then d else 0.0) by {
      assert ds[..|ds| - 1] == p;
    }
    if k == |tp| {
      assert SumFor(p, n) == 0.0 by {
        assert TotalNames(t)[k] == n;
        assert n !in TotalNames(tp);
        SumForAbsent(p, n);
      }
    } else {
      assert tp[k].name == m by {
        assert TotalNames(t)[k] == TotalNames(tp)[k];
      }
    }
  }

  /** The totals loop of the log composer: one entry per distinct trimmed drug
      name, in order of first administration, holding the sum of its doses. */
  method ComputeTotals(rows: seq<DrugRow>) returns (ts: seq<Total>)
    ensures ts == DrugTotals(rows)
    ensures TotalNames(ts) == Distinct(Names(rows))
    ensures forall k :: 0 <= k < |ts| ==> ts[k].amount == SumFor(Doses(rows), ts[k].name)
  {
    ts := [];
    var i := 0;
    while i < |rows|
      invariant 0 <= i <= |rows|
      invariant ts == Totals(Doses(rows[..i]))
    {
      assert rows[..i + 1][..i] == rows[..i];
      ts := AddDose(ts, Trim(rows[i].name), DoseValue(rows[i]));
      i := i + 1;
    }
    assert rows[..i] == rows;
    TotalsNames(Doses(rows));
    TotalsAreSums(Doses(rows));
  }

  /** The unit a total is printed in: a fixed lexical rule on the name. */
  function Unit(name: string): (u: string)
    ensures u == "mcg" || u == "mg"
    ensures u == "mcg" <==> Contains(Lower(name), "fentanyl")
  {
    if Contains(Lower(name), "fentanyl") then "mcg" else "mg"
  }

  /** "<name> <total><unit>"; `show` is JavaScript's rendering of a number. */
  function SummaryEntry(t: Total, show: real -> string): string
  {
    t.name + " " + show(t.amount) + Unit(t.name)
  }

  function SummaryEntries(ts: seq<Total>, show: real -> string): (r: seq<string>)
    ensures |r| == |ts|
    ensures forall k :: 0 <= k < |ts| ==> r[k] == SummaryEntry(ts[k], show)
  {
    if ts == [] then [] else SummaryEntries(ts[..|ts| - 1], show) + [SummaryEntry(ts[|ts| - 1], show)]
  }

  /** The summary's drug text for given totals. */
  function SummaryOf(ts: seq<Total>, show: real -> string): string
  {
    OrElse(Join(SummaryEntries(ts, show), ", "), "None Recorded")
  }

  lemma EntryEnding(t: Total, show: real -> string)
    ensures var e := SummaryEntry(t, show);
      |e| >= 2 && (e[|e| - 2..] == "mg" || e[|e| - 2..] == "cg")
  {
    var u := Unit(t.name);
    var e := SummaryEntry(t, show);
    assert e[|e| - |u|..] == u;
  }

  /** Non-empty totals print as entries ending in a unit, never as "None Recorded". */
  lemma SummaryOfEntries(ts: seq<Total>, show: real -> string)
    requires ts != []
    ensures SummaryOf(ts, show) != "None Recorded"
  {
    var es := SummaryEntries(ts, show);
    JoinEndsWithLast(es, ", ");
    var s := Join(es, ", ");
    var e := es[|es| - 1];
    EntryEnding(ts[|ts| - 1], show);
    assert s[|s| - 2..] == e[|e| - 2..];
  }

  /** The summary's drug text: "None Recorded" exactly when no drug row exists. */
  lemma DrugsSummaryNone(rows: seq<DrugRow>, show: real -> string)
    ensures SummaryOf(DrugTotals(rows), show) == "None Recorded" <==> rows == []
  {
    if rows != [] {
      TotalsDistinct(Doses(rows));
      assert TotalNames(Doses(rows))[0] in TotalNames(DrugTotals(rows));
      SummaryOfEntries(DrugTotals(rows), show);
    }
  }

  // ------------------------------------------------------ observation labels

  /** "Pre" before the timer has run, otherwise "T+<whole minutes>m". */
  function ElapsedLabel(seconds: int): (r: string)
    ensures seconds <= 0 ==> r == "Pre"
    ensures seconds > 0 ==>
      |r| >= 4 && r[..2] == "T+" && r[|r| - 1] == 'm' && DigitsValue(r[2..|r| - 1]) == seconds / 60
  {
    if seconds > 0 then
      var digits := NatToString(seconds / 60);
      NatToStringRoundTrip(seconds / 60);
      var r := "T+" + digits + "m";
      assert r[2..|r| - 1] == digits;
      r
    else "Pre"
  }

  /** The first cell of a new observation row: the elapsed label and the wall clock. */
  function ObsLabel(seconds: int, clock: string): string
  {
    ElapsedLabel(seconds) + " (" + clock + ")"
  }

  /** `addObsRow`'s new row: the label, and the four vitals empty. */
  function NewObsRow(seconds: int, clock: string): (o: ObsRow)
    ensures o.hr == o.bp == o.spo2 == o.rr == ""
  {
    ObsRow(ObsLabel(seconds, clock), "", "", "", "")
  }

  /** An observation row takes part in the log only if a vital was entered. */
  predicate HasVitals(o: ObsRow)
  {
    o.hr != "" || o.bp != "" || o.spo2 != "" || o.rr != ""
  }
}
