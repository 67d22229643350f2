/** The safety score of `_calculate_safety_score` and the status bucket the
    report and the page derive from it. */
module SafetyScorer {
  import opened PyStr
  import opened KnowledgeBase
  import opened AgeRules
  import opened MedicationEvaluator
  import opened InteractionChecker

  /** Points charged for one interaction: any severity other than "high" or
      "moderate" costs 5. */
  function InteractionPenalty(severity: string): (p: nat)
    ensures p == 30 <==> severity == "high"
    ensures p == 15 <==> severity == "moderate"
    ensures p == 5 <==> severity != "high" && severity != "moderate"
  {
    if severity == "high" then 30 else if severity == "moderate" then 15 else 5
  }

  /** Points charged for one medication finding. */
  function MedicationPenalty(f: MedFinding): nat {
    |f.warnings| * 5 +
    (if !f.ageAppropriate then 20 else 0) +
    (if !f.dosageAppropriate then 10 else 0) +
    (if !f.foundInDatabase then 15 else 0)
  }

  function InteractionDeductions(xs: seq<Interaction>): nat {
    if xs == [] then 0
    else InteractionDeductions(xs[..|xs| - 1]) + InteractionPenalty(xs[|xs| - 1].severity)
  }

  function MedicationDeductions(fs: seq<MedFinding>): nat {
    if fs == [] then 0
    else MedicationDeductions(fs[..|fs| - 1]) + MedicationPenalty(fs[|fs| - 1])
  }

  /** 100 minus every deduction, floored at 0. */
  function SafetyScore(xs: seq<Interaction>, fs: seq<MedFinding>): (score: int)
    ensures 0 <= score <= 100
    ensures score == 100 <==> InteractionDeductions(xs) + MedicationDeductions(fs) == 0
  {
    var s := 100 - InteractionDeductions(xs) - MedicationDeductions(fs);
    if s < 0 then 0 else s
  }

  /** Deductions add up over concatenation, so the score does not depend on
      how the findings are split into batches. */
  lemma {:induction false} MedicationDeductionsAppend(a: seq<MedFinding>, b: seq<MedFinding>)
    ensures MedicationDeductions(a + b) == MedicationDeductions(a) + MedicationDeductions(b)
    decreases |b|
  {
    if b != [] {
      assert (a + b)[..|a + b| - 1] == a + b[..|b| - 1];
      MedicationDeductionsAppend(a, b[..|b| - 1]);
    } else {
      assert a + b == a;
    }
  }

  lemma {:induction false} InteractionDeductionsAppend(a: seq<Interaction>, b: seq<Interaction>)
    ensures InteractionDeductions(a + b) == InteractionDeductions(a) + InteractionDeductions(b)
    decreases |b|
  {
    if b != [] {
      assert (a + b)[..|a + b| - 1] == a + b[..|b| - 1];
      InteractionDeductionsAppend(a, b[..|b| - 1]);
    } else {
      assert a + b == a;
    }
  }

  /** The deductions of one or two findings. */
  lemma MedicationDeductionsOfFew(f: MedFinding, g: MedFinding)
    ensures MedicationDeductions([f]) == MedicationPenalty(f)
    ensures MedicationDeductions([f, g]) == MedicationPenalty(f) + MedicationPenalty(g)
  {
    assert [f, g][..1] == [f];
    assert [f][..0] == [];
  }

  /** The deduction of a single interaction. */
  lemma InteractionDeductionsOfOne(x: Interaction)
    ensures InteractionDeductions([x]) == InteractionPenalty(x.severity)
  {
    assert [x][..0] == [];
  }

  /** Deductions do not depend on the order of the findings: swapping two
      neighbours leaves them unchanged. */
  lemma MedicationDeductionsSwap(a: seq<MedFinding>, f: MedFinding, g: MedFinding, b: seq<MedFinding>)
    ensures MedicationDeductions(a + [f, g] + b) == MedicationDeductions(a + [g, f] + b)
  {
    MedicationDeductionsAppend(a + [f, g], b);
    MedicationDeductionsAppend(a + [g, f], b);
    MedicationDeductionsAppend(a, [f, g]);
    MedicationDeductionsAppend(a, [g, f]);
    assert [f, g][..1] == [f];
    assert [g, f][..1] == [g];
  }

  /** Adding a medication never raises the score. */
  lemma ScoreMonotone(xs: seq<Interaction>, fs: seq<MedFinding>, f: MedFinding)
    ensures SafetyScore(xs, fs + [f]) <= SafetyScore(xs, fs)
  {
    assert (fs + [f])[..|fs|] == fs;
  }

  /** A drug the table does not know costs exactly 20 points (15 for being
      unknown and 5 for its single warning); a known drug costs 5 per
      contraindication, plus 20 when it is not age-appropriate. */
  lemma MedicationPenaltyOfAnalysis(db: DrugTable, age: int, med: Medication)
    ensures Key(med.name) !in db ==> MedicationPenalty(AnalyzeMedication(db, age, med)) == 20
    ensures Key(med.name) in db ==>
      MedicationPenalty(AnalyzeMedication(db, age, med)) ==
        5 * |db[Key(med.name)].contraindications| +
        (if AgeAppropriate(db[Key(med.name)], age) then 0 else 20)
  {}

  /** The status bucket shown for a score: the report and the page use the
      same thresholds. */
  function Status(score: int): (status: string)
    ensures status == "SAFE" <==> score >= 80
    ensures status == "CAUTION REQUIRED" <==> 60 <= score < 80
    ensures status == "HIGH RISK" <==> score < 60
  {
    if score >= 80 then "SAFE"
    else if score >= 60 then "CAUTION REQUIRED"
    else "HIGH RISK"
  }
}
