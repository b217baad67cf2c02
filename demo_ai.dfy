/**
 * The canned decision guidance: four sentences chosen by whether the decision is easy to
 * reverse and by whether an assumption was named.
 */
module DemoAi {
  import opened Wrappers
  import opened JsStrings

  datatype DecisionInput = DecisionInput(
    title: string,
    domain: string,
    reversibility: string,
    confidence: int,
    assumption: string)

  datatype Guidance = Guidance(headline: string, nextStep: string, guardrail: string, note: string)

  const ActHeadline := "Bias toward action: run a small test."
  const SlowHeadline := "Slow down: add a safeguard before committing."
  const TimeboxGuardrail := "Set a time-box and a stop rule (what evidence would make you pause?)."
  const PilotGuardrail := "Define a reversible pilot, add an exit plan, and pre-commit to criteria."
  const Quote := "\""
  const TestPrefix := "Test your key assumption this week: " + Quote
  const TestSuffix := Quote + ". Define a 15–30 minute action that produces evidence."
  const GenericNextStep :=
    "Pick one assumption to test this week, " + "and define a 15–30 minute action that produces evidence."

  /** A decision is reversible when its reversibility mentions "easy" or "medium", in any case. */
  predicate IsReversible(reversibility: string) {
    Includes(ToLower(reversibility), "easy") || Includes(ToLower(reversibility), "medium")
  }

  /** `demoGuidance`: total, with no error path. */
  function DemoGuidance(d: DecisionInput): (g: Guidance)
    ensures g.headline == if IsReversible(d.reversibility) then ActHeadline else SlowHeadline
    ensures g.guardrail == if IsReversible(d.reversibility) then TimeboxGuardrail else PilotGuardrail
    ensures d.assumption != "" ==> Includes(g.nextStep, Quote + d.assumption + Quote)
    ensures d.assumption == "" ==> g.nextStep == GenericNextStep
    ensures |g.note| > 8 + |d.domain| && g.note[..8 + |d.domain|] == "Domain: " + d.domain
  {
    var reversible := IsReversible(d.reversibility);
    var headline := if reversible then ActHeadline else SlowHeadline;
    var nextStep := if d.assumption != "" then TestPrefix + d.assumption + TestSuffix else GenericNextStep;
    var guardrail := if reversible then TimeboxGuardrail else PilotGuardrail;
    var note := "Domain: " + d.domain + ". Confidence: " + IntToString(d.confidence) + "/100.";
    NextStepQuotes(d.assumption);
    Guidance(headline, nextStep, guardrail, note)
  }

  lemma NextStepQuotes(assumption: string)
    ensures Includes(TestPrefix + assumption + TestSuffix, Quote + assumption + Quote)
  {
    var lead := "Test your key assumption this week: ";
    var tail := ". Define a 15–30 minute action that produces evidence.";
    assert TestPrefix + assumption + TestSuffix == lead + (Quote + assumption + Quote) + tail;
    IncludesInfix(lead, Quote + assumption + Quote, tail);
  }

  /** The headline and the guardrail always agree: both come from the one reversibility flag. */
  lemma HeadlineAgreesWithGuardrail(d: DecisionInput)
    ensures DemoGuidance(d).headline == ActHeadline <==> DemoGuidance(d).guardrail == TimeboxGuardrail
    ensures DemoGuidance(d).headline == SlowHeadline <==> DemoGuidance(d).guardrail == PilotGuardrail
  {
  }

  /** The reversibility test does not see letter case. */
  lemma ReversibleIgnoresCase(reversibility: string)
    ensures IsReversible(ToLower(reversibility)) == IsReversible(reversibility)
  {
    ToLowerIdempotent(reversibility);
  }

  /** Reads the assumption back out of a next step; the generic step names none. */
  function QuotedAssumption(nextStep: string): Option<string> {
    if |nextStep| > |TestPrefix| + |TestSuffix|
       && nextStep[..|TestPrefix|] == TestPrefix
       && nextStep[|nextStep| - |TestSuffix|..] == TestSuffix
    then Some(nextStep[|TestPrefix|..|nextStep| - |TestSuffix|])
    else None
  }

  /** The next step carries the assumption verbatim: it can be read back, and only when one was named. */
  lemma NextStepRoundTrip(d: DecisionInput)
    ensures QuotedAssumption(DemoGuidance(d).nextStep) ==
            if d.assumption != "" then Some(d.assumption) else None
  {
    var s := DemoGuidance(d).nextStep;
    if d.assumption != "" {
      assert s == TestPrefix + d.assumption + TestSuffix;
      assert s[..|TestPrefix|] == TestPrefix;
      assert s[|s| - |TestSuffix|..] == TestSuffix;
      assert s[|TestPrefix|..|s| - |TestSuffix|] == d.assumption;
    } else {
      assert s == GenericNextStep;
      assert GenericNextStep[0] == 'P' && TestPrefix[0] == 'T';
      assert s[..|TestPrefix|][0] == s[0];
      assert |s| <= |TestPrefix| || s[..|TestPrefix|] != TestPrefix;
    }
  }

  /** The note names the confidence in decimal, and the number can be read back from it. */
  lemma NoteShowsConfidence(d: DecisionInput)
    requires d.confidence >= 0
    ensures var note := DemoGuidance(d).note;
            var digits := IntToString(d.confidence);
            && note == "Domain: " + d.domain + ". Confidence: " + digits + "/100."
            && IsDigits(digits) && DigitsValue(digits) == d.confidence
  {
  }
}
