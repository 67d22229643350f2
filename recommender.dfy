/** The ordered advisories of `_generate_recommendations` and the fixed
    home-care list of `_generate_home_remedies`. */
module Recommender {
  import opened PyStr
  import opened MedicationEvaluator
  import opened InteractionChecker

  /** The warning sign "⚠️" followed by a space. */
  const WarningSign := "\U{26A0}\U{FE0F} "

  const UrgentHead := WarningSign + "URGENT"
  const UrgentTail := " Consult" + " with healthcare" + " provider before" + " taking these medications"
  const Urgent := UrgentHead + ":" + UrgentTail
  const AllClear := "\U{2705}" + " No major safety concerns identified"
  const TakeAsPrescribed := "\U{1F4CB}" + " Always take medications as prescribed by your healthcare provider"
  const KeepTiming := "\U{1F552}" + " Maintain consistent timing for medication doses"
  const StayHydrated := "\U{1F4A7}" + " Stay hydrated while taking medications"
  /** The three general lines that close every list. */
  const GeneralAdvice := [TakeAsPrescribed, KeepTiming, StayHydrated]

  function HighRiskLine(x: Interaction): string {
    "\U{1F6A8}" + " HIGH RISK: Avoid combining " + x.drug1 + " with " + x.drug2
  }

  function ModerateRiskLine(x: Interaction): string {
    WarningSign + "MODERATE RISK: Monitor closely when taking " + x.drug1 + " with " + x.drug2
  }

  function AgeConcernLine(f: MedFinding): string {
    "\U{274C}" + " AGE CONCERN: " + f.name + " may not be appropriate for this age group"
  }

  function WarningsLine(f: MedFinding): string {
    WarningSign + f.name + ": Check for " + Join(f.warnings, ", ")
  }

  function NotInDatabaseLine(f: MedFinding): string {
    "\U{1F50D}" + " " + f.name + ": Not in database - requires manual verification"
  }

  /** The advisory for one interaction: none for a severity other than
      "high" or "moderate". */
  function InteractionAdvice(x: Interaction): seq<string> {
    if x.severity == "high" then [HighRiskLine(x)]
    else if x.severity == "moderate" then [ModerateRiskLine(x)]
    else []
  }

  function InteractionAdvices(xs: seq<Interaction>): seq<string> {
    if xs == [] then []
    else InteractionAdvices(xs[..|xs| - 1]) + InteractionAdvice(xs[|xs| - 1])
  }

  function AgeAdvice(f: MedFinding): seq<string> {
    if !f.ageAppropriate then [AgeConcernLine(f)] else []
  }

  function WarningsAdvice(f: MedFinding): seq<string> {
    if f.warnings != [] then [WarningsLine(f)] else []
  }

  function UnknownAdvice(f: MedFinding): seq<string> {
    if !f.foundInDatabase then [NotInDatabaseLine(f)] else []
  }

  /** The advisories for one medication, in the order age, warnings, unknown. */
  function MedicationAdvice(f: MedFinding): seq<string> {
    AgeAdvice(f) + WarningsAdvice(f) + UnknownAdvice(f)
  }

  function MedicationAdvices(fs: seq<MedFinding>): seq<string> {
    if fs == [] then []
    else MedicationAdvices(fs[..|fs| - 1]) + MedicationAdvice(fs[|fs| - 1])
  }

  /** Advising on one more interaction appends its own advisory. */
  lemma InteractionAdvicesGrow(xs: seq<Interaction>, i: nat, front: seq<string>, before: seq<string>,
                               after: seq<string>)
    requires i < |xs| && before == front + InteractionAdvices(xs[..i])
    requires after == before + InteractionAdvice(xs[i])
    ensures after == front + InteractionAdvices(xs[..i + 1])
  {
    assert xs[..i + 1][..i] == xs[..i];
    Regroup(front, InteractionAdvices(xs[..i]), InteractionAdvice(xs[i]));
  }

  /** Advising on one more medication appends its own advisories. */
  lemma MedicationAdvicesGrow(fs: seq<MedFinding>, i: nat, front: seq<string>, before: seq<string>,
                              after: seq<string>)
    requires i < |fs| && before == front + MedicationAdvices(fs[..i])
    requires after == before + MedicationAdvice(fs[i])
    ensures after == front + MedicationAdvices(fs[..i + 1])
  {
    assert fs[..i + 1][..i] == fs[..i];
    Regroup(front, MedicationAdvices(fs[..i]), MedicationAdvice(fs[i]));
  }

  lemma Regroup(a: seq<string>, b: seq<string>, c: seq<string>)
    ensures a + b + c == a + (b + c)
  {}

  /** Everything the rule list says before the closing lines. */
  function Concerns(score: int, xs: seq<Interaction>, fs: seq<MedFinding>): seq<string> {
    (if score < 70 then [Urgent] else []) + InteractionAdvices(xs) + MedicationAdvices(fs)
  }

  /** The full advisory list: the concerns, the all-clear line when there
      is no concern, and always the three general lines last. */
  function Recommendations(score: int, xs: seq<Interaction>, fs: seq<MedFinding>): seq<string> {
    var c := Concerns(score, xs, fs);
    (if c == [] then [AllClear] else c) + GeneralAdvice
  }

  /** Every list has at least four lines and ends with the three general
      lines. */
  lemma RecommendationsClose(score: int, xs: seq<Interaction>, fs: seq<MedFinding>)
    ensures var r := Recommendations(score, xs, fs);
      |r| >= 4 && r[|r| - 3..] == GeneralAdvice
  {
    var c := Concerns(score, xs, fs);
    var opening := if c == [] then [AllClear] else c;
    assert (opening + GeneralAdvice)[|opening|..] == GeneralAdvice;
  }

  /** A line that is neither the urgent line nor the all-clear line. */
  predicate OrdinaryLine(line: string) {
    line != Urgent && |line| > 0 && line[0] != '\U{2705}'
  }

  lemma HeadHasNoColon()
    ensures ':' !in UrgentHead
  {
    assert ':' !in WarningSign && ':' !in "URGENT";
  }

  lemma TailHasNoColon()
    ensures ':' !in UrgentTail
  {
    assert ':' !in " Consult" && ':' !in " with healthcare";
    assert ':' !in " provider before" && ':' !in " taking these medications";
  }

  /** The urgent line holds a single colon, right after "URGENT". */
  lemma UrgentColon(k: int)
    requires 0 <= k < |Urgent| && Urgent[k] == ':'
    ensures k == |UrgentHead|
  {
    HeadHasNoColon();
    TailHasNoColon();
  }

  /** The per-medication warnings line never coincides with the urgent line,
      whatever the medication's name: the only colon of the urgent line is
      followed by " Consult", not by " Check". */
  lemma WarningsLineIsNotUrgent(f: MedFinding)
    ensures WarningsLine(f) != Urgent
  {
    var line := WarningsLine(f);
    var k := |WarningSign| + |f.name|;
    var back := ": Check for " + Join(f.warnings, ", ");
    assert line == (WarningSign + f.name) + back;
    assert line[k] == back[0] == ':' && line[k + 3] == back[3] == 'h';
    if k < |Urgent| && Urgent[k] == ':' {
      UrgentColon(k);
      assert Urgent[k + 3] == UrgentTail[2] == 'o';
    }
  }

  lemma {:induction false} InteractionAdvicesOrdinary(xs: seq<Interaction>)
    ensures forall line :: line in InteractionAdvices(xs) ==> OrdinaryLine(line)
  {
    if xs != [] {
      InteractionAdvicesOrdinary(xs[..|xs| - 1]);
      var x := xs[|xs| - 1];
      var high, moderate := HighRiskLine(x), ModerateRiskLine(x);
      assert high[0] == '\U{1F6A8}';
      assert moderate[3] == (WarningSign + "MODERATE")[3] == 'M';
      assert Urgent[3] == UrgentHead[3] == 'U';
    }
  }

  lemma {:induction false} MedicationAdvicesOrdinary(fs: seq<MedFinding>)
    ensures forall line :: line in MedicationAdvices(fs) ==> OrdinaryLine(line)
  {
    if fs != [] {
      MedicationAdvicesOrdinary(fs[..|fs| - 1]);
      var f := fs[|fs| - 1];
      WarningsLineIsNotUrgent(f);
      assert AgeConcernLine(f)[0] == '\U{274C}';
      assert WarningsLine(f)[0] == '\U{26A0}';
      assert NotInDatabaseLine(f)[0] == '\U{1F50D}';
      assert Urgent[0] == '\U{26A0}';
    }
  }

  /** The urgent line is neither the all-clear line nor a general line:
      their first characters differ. */
  lemma UrgentIsNotClosing()
    ensures Urgent != AllClear && Urgent !in GeneralAdvice
  {
    assert Urgent[0] == UrgentHead[0] == '\U{26A0}';
    assert AllClear[0] == '\U{2705}';
    assert TakeAsPrescribed[0] == '\U{1F4CB}';
    assert KeepTiming[0] == '\U{1F552}';
    assert StayHydrated[0] == '\U{1F4A7}';
  }

  /** From a score of 70 on, no line is the urgent line. */
  lemma NoUrgentWhenSafe(score: int, xs: seq<Interaction>, fs: seq<MedFinding>)
    requires score >= 70
    ensures Urgent !in Recommendations(score, xs, fs)
  {
    InteractionAdvicesOrdinary(xs);
    MedicationAdvicesOrdinary(fs);
    UrgentIsNotClosing();
    var c := Concerns(score, xs, fs);
    assert c == InteractionAdvices(xs) + MedicationAdvices(fs);
    assert Urgent !in c;
  }

  /** The urgent line is given exactly when the score is below 70, and then
      it comes first. */
  lemma UrgentIffLowScore(score: int, xs: seq<Interaction>, fs: seq<MedFinding>)
    ensures Urgent in Recommendations(score, xs, fs) <==> score < 70
    ensures score < 70 ==> Recommendations(score, xs, fs)[0] == Urgent
  {
    if score >= 70 {
      NoUrgentWhenSafe(score, xs, fs);
    } else {
      assert Concerns(score, xs, fs)[0] == Urgent;
    }
  }

  /** No interaction is high or moderate. */
  predicate QuietInteractions(xs: seq<Interaction>) {
    forall k :: 0 <= k < |xs| ==> xs[k].severity != "high" && xs[k].severity != "moderate"
  }

  /** Every medication is known, age-appropriate and without warnings. */
  predicate CleanFindings(fs: seq<MedFinding>) {
    forall k :: 0 <= k < |fs| ==> fs[k].ageAppropriate && fs[k].warnings == [] && fs[k].foundInDatabase
  }

  lemma {:induction false} InteractionAdvicesEmpty(xs: seq<Interaction>)
    ensures InteractionAdvices(xs) == [] <==> QuietInteractions(xs)
  {
    if xs != [] {
      InteractionAdvicesEmpty(xs[..|xs| - 1]);
      assert forall k :: 0 <= k < |xs| - 1 ==> xs[..|xs| - 1][k] == xs[k];
    }
  }

  lemma MedicationAdviceEmpty(f: MedFinding)
    ensures MedicationAdvice(f) == [] <==> f.ageAppropriate && f.warnings == [] && f.foundInDatabase
  {
    assert |MedicationAdvice(f)| == |AgeAdvice(f)| + |WarningsAdvice(f)| + |UnknownAdvice(f)|;
  }

  lemma {:induction false} MedicationAdvicesEmpty(fs: seq<MedFinding>)
    ensures MedicationAdvices(fs) == [] <==> CleanFindings(fs)
  {
    if fs != [] {
      MedicationAdvicesEmpty(fs[..|fs| - 1]);
      MedicationAdviceEmpty(fs[|fs| - 1]);
      assert forall k :: 0 <= k < |fs| - 1 ==> fs[..|fs| - 1][k] == fs[k];
    }
  }

  /** "No major safety concerns" is said exactly when the score is at least
      70, no interaction is high or moderate, and every medication is known,
      age-appropriate and free of warnings. */
  lemma AllClearIff(score: int, xs: seq<Interaction>, fs: seq<MedFinding>)
    ensures AllClear in Recommendations(score, xs, fs) <==>
      score >= 70 && QuietInteractions(xs) && CleanFindings(fs)
  {
    InteractionAdvicesOrdinary(xs);
    MedicationAdvicesOrdinary(fs);
    InteractionAdvicesEmpty(xs);
    MedicationAdvicesEmpty(fs);
    var c := Concerns(score, xs, fs);
    assert forall line :: line in c ==> line == Urgent || OrdinaryLine(line);
    assert AllClear !in GeneralAdvice;
    assert AllClear != Urgent;
  }

  /** One home-care suggestion. */
  datatype Remedy = Remedy(category: string, recommendation: string, benefit: string)

  /** The k-th of the six home-care suggestions. */
  function RemedyAt(k: nat): Remedy
    requires k < 6
  {
    if k == 0 then
      Remedy("Hydration", "Drink 8-10 glasses of water daily",
             "Helps medication absorption and reduces side effects")
    else if k == 1 then
      Remedy("Nutrition", "Take medications with food if recommended",
             "Reduces stomach irritation and improves absorption")
    else if k == 2 then
      Remedy("Sleep", "Maintain 7-8 hours of quality sleep",
             "Supports immune system and medication effectiveness")
    else if k == 3 then
      Remedy("Exercise", "Light to moderate exercise as tolerated",
             "Improves circulation and overall health")
    else if k == 4 then
      Remedy("Monitoring", "Keep a medication diary",
             "Track effectiveness and side effects")
    else
      Remedy("Safety", "Store medications properly",
             "Maintains medication potency and prevents accidents")
  }

  /** The six home-care suggestions, in order; they do not depend on the
      medications. */
  function HomeRemedies(meds: seq<Medication>): (r: seq<Remedy>)
    ensures |r| == 6
  {
    seq(6, k requires 0 <= k < 6 => RemedyAt(k))
  }

  /** The home-care list is the same whatever is prescribed. */
  lemma HomeRemediesIgnoreMedications(a: seq<Medication>, b: seq<Medication>)
    ensures HomeRemedies(a) == HomeRemedies(b)
  {}
}
