/** The multi-step "Free Project Estimator" form: the pricing formula, the
    seven-page step counter, the progress bar, the displayed range and the
    service button labels. */
module EstimatorForm {
  import opened Options
  import opened Pricing
  import opened Text

  /** The three timeline options. */
  datatype Timeline = Urgent | Standard | Flexible

  function TimelineMultiplier(t: Timeline): (m: real)
    ensures 0.9 <= m <= 1.2
  {
    match t
    case Urgent => 1.2
    case Standard => 1.0
    case Flexible => 0.9
  }

  /** The form fields the estimate reads. `squareFootage` is what `parseFloat`
      made of the text field (an empty field reads as "0"); `None` is `NaN`. */
  datatype FormValues = FormValues(
    squareFootage: Option<real>,
    serviceType: string,
    complexity: Complexity,
    timeline: Timeline)

  /** Base price per square foot for each service button. */
  const BaseRates: map<string, real> := map[
    "driveways-walkways" := 12.0,
    "stamped-concrete" := 18.0,
    "patios-pool-decks" := 20.0,
    "concrete-repairs" := 10.0,
    "epoxy-flooring" := 8.0]

  /** Rate used for a service type the table does not list. */
  const DefaultBaseRate: real := 15.0

  /** `baseRates[serviceType] || 15`; every table entry is non-zero, so the
      fallback applies exactly to the missing keys. */
  function BaseRate(serviceType: string): real
  {
    if serviceType in BaseRates then BaseRates[serviceType] else DefaultBaseRate
  }

  /** The five listed service types get their table rate and any other one the
      fallback; no listed rate equals the fallback, so the rate tells which. */
  lemma BaseRateTable(serviceType: string)
    ensures serviceType == "driveways-walkways" ==> BaseRate(serviceType) == 12.0
    ensures serviceType == "stamped-concrete" ==> BaseRate(serviceType) == 18.0
    ensures serviceType == "patios-pool-decks" ==> BaseRate(serviceType) == 20.0
    ensures serviceType == "concrete-repairs" ==> BaseRate(serviceType) == 10.0
    ensures serviceType == "epoxy-flooring" ==> BaseRate(serviceType) == 8.0
    ensures BaseRate(serviceType) == DefaultBaseRate <==> serviceType !in BaseRates
    ensures 8.0 <= BaseRate(serviceType) <= 20.0
  {
  }

  /** `calculateEstimate`'s result: nothing when square footage is 0 or NaN
      (`if (!sqFt) return`), otherwise sqFt × rate × complexity × timeline.
      Negative square footage is not rejected and gives a negative total. */
  function Estimate(v: FormValues): (r: Option<real>)
    ensures r.None? <==> v.squareFootage.None? || v.squareFootage.value == 0.0
    ensures r.Some? ==> (r.value > 0.0 <==> v.squareFootage.value > 0.0)
    ensures r.Some? ==> r.value != 0.0
  {
    match v.squareFootage
    case None => None
    case Some(sqFt) =>
      if sqFt == 0.0 then None
      else
        var rate, cm, tm := BaseRate(v.serviceType), ComplexityMultiplier(v.complexity), TimelineMultiplier(v.timeline);
        assert sqFt * rate * cm * tm == sqFt * (rate * cm * tm) && rate * cm * tm > 0.0;
        Some(sqFt * rate * cm * tm)
  }

  /** With the default 'standard' complexity and 'standard' timeline both
      multipliers are 1, so the estimate is square footage times base rate. */
  lemma DefaultsUseBaseRateOnly(sqFt: real, serviceType: string)
    requires sqFt != 0.0
    ensures Estimate(FormValues(Some(sqFt), serviceType, Complexity.Standard, Timeline.Standard))
         == Some(sqFt * BaseRate(serviceType))
  {
  }

  /** Holding every other field fixed, more square footage costs strictly more. */
  lemma EstimateIncreasesWithArea(a: real, b: real, serviceType: string, c: Complexity, t: Timeline)
    requires a < b && a != 0.0 && b != 0.0
    ensures Estimate(FormValues(Some(a), serviceType, c, t)).value
          < Estimate(FormValues(Some(b), serviceType, c, t)).value
  {
    var k := BaseRate(serviceType) * ComplexityMultiplier(c) * TimelineMultiplier(t);
    assert k > 0.0;
    assert a * BaseRate(serviceType) * ComplexityMultiplier(c) * TimelineMultiplier(t) == a * k;
    assert b * BaseRate(serviceType) * ComplexityMultiplier(c) * TimelineMultiplier(t) == b * k;
    assert (b - a) * k > 0.0;
  }

  /** The state update `calculateEstimate` performs: a rejected input keeps
      whatever estimate was shown before. */
  function Recalculated(previous: Option<real>, v: FormValues): Option<real>
  {
    if Estimate(v).Some? then Estimate(v) else previous
  }

  /** Square footage 0 or NaN leaves the previous estimate in place, while a
      negative square footage replaces it with a negative one. */
  lemma RecalculatedKeepsOrReplaces(previous: Option<real>, v: FormValues)
    ensures v.squareFootage.None? || v.squareFootage == Some(0.0) ==> Recalculated(previous, v) == previous
    ensures v.squareFootage.Some? && v.squareFootage.value < 0.0
        ==> Recalculated(previous, v).Some? && Recalculated(previous, v).value < 0.0
    ensures v.squareFootage.Some? && v.squareFootage.value > 0.0
        ==> Recalculated(previous, v).Some? && Recalculated(previous, v).value > 0.0
  {
  }

  /** 1000 sq ft of stamped concrete at the default tiers: 18000, shown as
      16200 to 19800. */
  lemma StampedConcreteExample()
    ensures Estimate(FormValues(Some(1000.0), "stamped-concrete", Complexity.Standard, Timeline.Standard)) == Some(18000.0)
    ensures ShownRange(Some(18000.0)) == Some(Range(16200, 19800))
  {
    RoundOfInteger(16200);
    RoundOfInteger(19800);
  }

  /** The seven pages of the form. */
  const StepTitles: seq<string> := [
    "Project Type", "Service Details", "Project Size", "Timeline",
    "Location", "Contact Info", "Additional Info"]

  /** `steps.length - 1`. */
  const LastStep: int := |StepTitles| - 1

  /** The page `nextStep` moves to: one further when validation succeeded,
      never past the last page. */
  function NextStepIndex(step: int, isValid: bool): (next: int)
    requires 0 <= step <= LastStep
    ensures 0 <= next <= LastStep
    ensures isValid && step < LastStep ==> next == step + 1
    ensures !isValid || step == LastStep ==> next == step
  {
    if isValid then (if step + 1 < LastStep then step + 1 else LastStep) else step
  }

  /** The page `prevStep` moves to: one back, never before the first page. */
  function PrevStepIndex(step: int): (prev: int)
    requires 0 <= step <= LastStep
    ensures 0 <= prev <= LastStep
    ensures step > 0 ==> prev == step - 1
    ensures step == 0 ==> prev == 0
  {
    if step - 1 > 0 then step - 1 else 0
  }

  /** Away from the ends, a successful "Next" and a "Previous" undo each other. */
  lemma NextAndPrevAreInverse(step: int)
    requires 0 <= step <= LastStep
    ensures step < LastStep ==> PrevStepIndex(NextStepIndex(step, true)) == step
    ensures step > 0 ==> NextStepIndex(PrevStepIndex(step), true) == step
  {
  }

  /** The progress bar value `((currentStep + 1) / steps.length) * 100`. */
  function Progress(step: int): real
    requires 0 <= step <= LastStep
  {
    ((step + 1) as real / |StepTitles| as real) * 100.0
  }

  /** Progress lies in (0, 100], grows with the step, and is full exactly on
      the last page. */
  lemma ProgressBounds(step: int, later: int)
    requires 0 <= step < later <= LastStep
    ensures 0.0 < Progress(step) < Progress(later) <= 100.0
    ensures Progress(later) == 100.0 <==> later == LastStep
  {
  }

  /** The "Estimated Range" box is part of the square-footage page only. */
  function ShownOnPage(step: int, estimate: Option<real>): (r: Option<Range>)
    ensures r.Some? ==> step == 2 && estimate.Some?
  {
    if step == 2 then ShownRange(estimate) else None
  }

  /** Every estimate the form computes is displayed on that page: none is zero. */
  lemma ComputedEstimateIsShown(v: FormValues)
    requires Estimate(v).Some?
    ensures ShownOnPage(2, Estimate(v)) == Some(PriceRange(Estimate(v).value))
  {
  }

  /** The form's UI state: the current page and the last computed estimate. */
  class Form {
    var currentStep: int
    var estimate: Option<real>

    predicate Valid()
      reads this
    {
      0 <= currentStep <= LastStep
    }

    constructor ()
      ensures Valid()
      ensures currentStep == 0 && estimate == None
    {
      currentStep := 0;
      estimate := None;
    }

    /** The heading of the current page; the step invariant keeps the index in range. */
    function Title(): string
      reads this
      requires Valid()
    {
      StepTitles[currentStep]
    }

    method CalculateEstimate(v: FormValues)
      requires Valid()
      modifies this`estimate
      ensures Valid()
      ensures estimate == Recalculated(old(estimate), v)
    {
      var r := Estimate(v);
      if r.None? {
        return;
      }
      estimate := r;
    }

    /** "Next": `isValid` is the outcome of the form library's validation.
        Leaving page 2 successfully recomputes the estimate first. */
    method NextStep(isValid: bool, v: FormValues)
      requires Valid()
      modifies this
      ensures Valid()
      ensures currentStep == NextStepIndex(old(currentStep), isValid)
      ensures estimate == if isValid && old(currentStep) == 2 then Recalculated(old(estimate), v) else old(estimate)
    {
      if isValid {
        if currentStep == 2 {
          CalculateEstimate(v);
        }
        currentStep := if currentStep + 1 < LastStep then currentStep + 1 else LastStep;
      }
    }

    /** "Previous". */
    method PrevStep()
      requires Valid()
      modifies this`currentStep
      ensures Valid()
      ensures currentStep == PrevStepIndex(old(currentStep))
    {
      currentStep := if currentStep - 1 > 0 then currentStep - 1 else 0;
    }
  }

  /** The service buttons of page 1, in order. */
  const ServiceTypes: seq<string> := [
    "driveways-walkways", "stamped-concrete", "patios-pool-decks",
    "concrete-repairs", "epoxy-flooring"]

  /** A character of the regular-expression class `\w`. */
  predicate IsWordChar(c: char)
  {
    'a' <= c <= 'z' || 'A' <= c <= 'Z' || '0' <= c <= '9' || c == '_'
  }

  function UpperChar(c: char): char
  {
    if 'a' <= c <= 'z' then (c as int - 32) as char else c
  }

  /** Position `i` matches `\b\w`: a word character not preceded by one. */
  predicate IsWordStart(s: string, i: int)
    requires 0 <= i < |s|
  {
    IsWordChar(s[i]) && (i == 0 || !IsWordChar(s[i - 1]))
  }

  /** `s.replace(/\b\w/g, l => l.toUpperCase())`. */
  function CapitalizeWords(s: string): (r: string)
    ensures |r| == |s|
    ensures forall i :: 0 <= i < |s| && IsWordStart(s, i) ==> !('a' <= r[i] <= 'z')
    ensures forall i :: 0 <= i < |s| && !IsWordStart(s, i) ==> r[i] == s[i]
    ensures forall i :: 0 <= i < |s| ==> LowerChar(r[i]) == LowerChar(s[i])
  {
    seq(|s|, i requires 0 <= i < |s| => if IsWordStart(s, i) then UpperChar(s[i]) else s[i])
  }

  /** Capitalising changes letters only: every other character stays where it was. */
  lemma CapitalizeKeepsNonLetters(s: string, i: int)
    requires 0 <= i < |s| && !('a' <= s[i] <= 'z')
    ensures CapitalizeWords(s)[i] == s[i]
  {
  }

  /** No occurrence of `c` among the first `i` characters. */
  predicate NoneBefore(s: string, c: char, i: int)
    requires 0 <= i <= |s|
  {
    forall j :: 0 <= j < i ==> s[j] != c
  }

  /** `s.indexOf(c)`: the position of the first `c`, or -1 when there is none. */
  function IndexOf(s: string, c: char): (k: int)
    ensures -1 <= k < |s|
    ensures k == -1 <==> c !in s
    ensures k >= 0 ==> s[k] == c && NoneBefore(s, c, k)
  {
    if s == [] then -1
    else if s[0] == c then 0
    else
      var k := IndexOf(s[1..], c);
      if k == -1 then -1
      else
        assert forall j :: 1 <= j < k + 1 ==> s[j] == s[1..][j - 1];
        k + 1
  }

  /** `s.replace(from, to)` with a string pattern: the first occurrence, found
      as by `indexOf`, is replaced and nothing else changes. */
  function ReplaceFirst(s: string, from: char, to: char): (r: string)
    ensures |r| == |s|
    ensures from !in s ==> r == s
    ensures forall i :: 0 <= i < |s| && s[i] == from && NoneBefore(s, from, i) ==> r[i] == to
    ensures forall i :: 0 <= i < |s| && !(s[i] == from && NoneBefore(s, from, i)) ==> r[i] == s[i]
  {
    var k := IndexOf(s, from);
    if k == -1 then s else s[k := to]
  }

  /** Every occurrence of `from` replaced (what `replaceAll` does). */
  function ReplaceAll(s: string, from: char, to: char): (r: string)
    ensures |r| == |s|
    ensures forall i :: 0 <= i < |s| && s[i] == from ==> r[i] == to
    ensures forall i :: 0 <= i < |s| && s[i] != from ==> r[i] == s[i]
    ensures from != to ==> from !in r
  {
    seq(|s|, i requires 0 <= i < |s| => if s[i] == from then to else s[i])
  }

  /** The button label as written: `service.replace('-', ' ')` then capitalised. */
  function ServiceLabel(service: string): string
  {
    CapitalizeWords(ReplaceFirst(service, '-', ' '))
  }

  /** The label with every hyphen turned into a space. */
  function IntendedServiceLabel(service: string): string
  {
    CapitalizeWords(ReplaceAll(service, '-', ' '))
  }

  /** Capitalising changes case only: lower-cased, the label is the text it
      was made from. */
  lemma CapitalizeChangesCaseOnly(s: string)
    ensures Lower(CapitalizeWords(s)) == Lower(s)
  {
    forall i | 0 <= i < |s| ensures Lower(CapitalizeWords(s))[i] == Lower(s)[i] {
      assert Lower(CapitalizeWords(s))[i] == LowerChar(CapitalizeWords(s)[i]);
    }
  }

  /** The service type with two hyphens keeps its second one: its button reads
      "Patios Pool-Decks", where "Patios Pool Decks" was meant. */
  lemma PatiosLabelKeepsHyphen()
    ensures ServiceLabel(ServiceTypes[2]) == "Patios Pool-Decks"
    ensures IntendedServiceLabel(ServiceTypes[2]) == "Patios Pool Decks"
  {
    PatiosFirstHyphenReplaced();
    PatiosEveryHyphenReplaced();
    PatiosCapitalized();
  }

  lemma PatiosFirstHyphenReplaced()
    ensures ReplaceFirst(ServiceTypes[2], '-', ' ') == "patios pool-decks"
  {
    PatiosFirstHyphenAt6();
    PatiosSplice();
    assert ServiceTypes[2] == "patios-pool-decks";
  }

  lemma PatiosSplice()
    ensures "patios-pool-decks"[6 := ' '] == "patios pool-decks"
  {
    var replaced := "patios-pool-decks"[6 := ' '];
    forall i | 0 <= i < |replaced| ensures replaced[i] == "patios pool-decks"[i] {
    }
  }

  lemma PatiosFirstHyphenAt6()
    ensures IndexOf("patios-pool-decks", '-') == 6
  {
    var s := "patios-pool-decks";
    assert s[6] == '-';
    assert NoneBefore(s, '-', 6);
  }

  lemma PatiosEveryHyphenReplaced()
    ensures ReplaceAll(ServiceTypes[2], '-', ' ') == "patios pool decks"
  {
    var all := ReplaceAll(ServiceTypes[2], '-', ' ');
    forall i | 0 <= i < |all| ensures all[i] == "patios pool decks"[i] {
    }
  }

  lemma PatiosCapitalized()
    ensures CapitalizeWords("patios pool-decks") == "Patios Pool-Decks"
    ensures CapitalizeWords("patios pool decks") == "Patios Pool Decks"
  {
    var a, b := CapitalizeWords("patios pool-decks"), CapitalizeWords("patios pool decks");
    forall i | 0 <= i < |a| ensures a[i] == "Patios Pool-Decks"[i] {
    }
    forall i | 0 <= i < |b| ensures b[i] == "Patios Pool Decks"[i] {
    }
  }

  /** The intended label never contains a hyphen. */
  lemma IntendedLabelHasNoHyphen(service: string)
    ensures '-' !in IntendedServiceLabel(service)
  {
    var replaced := ReplaceAll(service, '-', ' ');
    forall i | 0 <= i < |replaced| ensures IntendedServiceLabel(service)[i] != '-' {
      assert replaced[i] != '-';
    }
  }

  /** On a name with at most one hyphen the written label is the intended one,
      which covers four of the five buttons. */
  lemma LabelsAgreeOnOneHyphen(service: string)
    requires forall i, j :: 0 <= i < j < |service| && service[i] == '-' ==> service[j] != '-'
    ensures ServiceLabel(service) == IntendedServiceLabel(service)
  {
    var first, all := ReplaceFirst(service, '-', ' '), ReplaceAll(service, '-', ' ');
    assert first == all;
  }
}
