/** The `MedicalPrescriptionVerifier` class: its three tables are set once
    by the constructor and only read afterwards, and its methods build the
    analysis of a prescription step by step, each proved to compute the
    matching specification function of the component modules. */
module Verifier {
  import opened PyStr
  import opened KnowledgeBase
  import opened AgeRules
  import opened MedicationEvaluator
  import opened InteractionChecker
  import opened SafetyScorer
  import opened Recommender

  /** The patient fields the analysis uses or echoes.  The weight the page
      also collects is never used by the analysis and is not modelled. */
  datatype Patient = Patient(name: string, age: int)

  /** The result dictionary of `analyze_prescription`. */
  datatype Analysis = Analysis(
    patientInfo: Patient,
    medications: seq<MedFinding>,
    interactions: seq<Interaction>,
    safetyScore: int,
    recommendations: seq<string>,
    homeRemedies: seq<Remedy>)

  /** The findings for `meds`, one per medication, in input order. */
  function Findings(db: DrugTable, age: int, meds: seq<Medication>): (fs: seq<MedFinding>)
    ensures |fs| == |meds|
    ensures forall i :: 0 <= i < |meds| ==> fs[i] == AnalyzeMedication(db, age, meds[i])
  {
    seq(|meds|, i requires 0 <= i < |meds| => AnalyzeMedication(db, age, meds[i]))
  }

  /** The complete analysis of a prescription: the score is computed from all
      findings and interactions, and the recommendations from that score. */
  function AnalysisOf(db: DrugTable, table: InteractionTable, patient: Patient, meds: seq<Medication>): Analysis {
    var fs := Findings(db, patient.age, meds);
    var xs := CheckedInteractions(table, meds);
    var score := SafetyScore(xs, fs);
    Analysis(patient, fs, xs, score, Recommendations(score, xs, fs), HomeRemedies(meds))
  }

  class MedicalPrescriptionVerifier {
    const drugDatabase: DrugTable
    const interactionDatabase: InteractionTable
    const dosageGuidelines: seq<(string, AgeBracket)>

    constructor ()
      ensures drugDatabase == Drugs
      ensures interactionDatabase == Interactions
      ensures dosageGuidelines == Brackets
    {
      drugDatabase := Drugs;
      interactionDatabase := Interactions;
      dosageGuidelines := Brackets;
    }

    /** `analyze_prescription` */
    method AnalyzePrescription(patient: Patient, medications: seq<Medication>) returns (results: Analysis)
      ensures results == AnalysisOf(drugDatabase, interactionDatabase, patient, medications)
      ensures |results.medications| == |medications|
      ensures forall i :: 0 <= i < |medications| ==>
        results.medications[i] == AnalyzeMedication(drugDatabase, patient.age, medications[i])
      ensures 0 <= results.safetyScore <= 100
      ensures results.safetyScore == SafetyScore(results.interactions, results.medications)
      ensures results.recommendations ==
        Recommendations(results.safetyScore, results.interactions, results.medications)
    {
      var findings: seq<MedFinding> := [];
      for i := 0 to |medications|
        invariant |findings| == i
        invariant forall k :: 0 <= k < i ==> findings[k] == AnalyzeMedication(drugDatabase, patient.age, medications[k])
      {
        var medAnalysis := AnalyzeMedication(drugDatabase, patient.age, medications[i]);
        findings := findings + [medAnalysis];
      }
      assert findings == Findings(drugDatabase, patient.age, medications);
      var interactions := CheckInteractions(medications);
      var score := CalculateSafetyScore(interactions, findings);
      var recommendations := GenerateRecommendations(score, interactions, findings);
      results := Analysis(patient, findings, interactions, score, recommendations, HomeRemedies(medications));
    }

    /** `_get_age_group`: the first bracket, in table order, that holds the
        age; "adult" when none does. */
    method GetAgeGroup(age: int) returns (group: string)
      ensures group == AgeGroupOf(dosageGuidelines, age)
    {
      var k := 0;
      while k < |dosageGuidelines|
        invariant 0 <= k <= |dosageGuidelines|
        invariant AgeGroupOf(dosageGuidelines[k..], age) == AgeGroupOf(dosageGuidelines, age)
      {
        var criteria := dosageGuidelines[k].1;
        if criteria.minAge <= age <= criteria.maxAge {
          return dosageGuidelines[k].0;
        }
        assert dosageGuidelines[k..][1..] == dosageGuidelines[k + 1..];
        k := k + 1;
      }
      return "adult";
    }

    /** `_check_interactions`: the nested loops over i < j. */
    method CheckInteractions(medications: seq<Medication>) returns (interactions: seq<Interaction>)
      ensures interactions == CheckedInteractions(interactionDatabase, medications)
    {
      var table := interactionDatabase;
      var n := |medications|;
      interactions := [];
      for i := 0 to n
        invariant interactions == ReportsBelow(Probing(table, medications), n, i)
      {
        ProbingProbesRow(table, medications, i);
        interactions := CheckRow(table, medications, i, interactions, Probing(table, medications));
      }
    }

    /** The inner loop of `_check_interactions`: medication i against every
        later one, in order.  `probe` stands for what probing a pair of row i
        reports. */
    static method CheckRow(table: InteractionTable, medications: seq<Medication>, i: nat,
                           interactions: seq<Interaction>, ghost probe: Probe) returns (r: seq<Interaction>)
      requires i < |medications| && ProbesRow(probe, table, medications, i)
      ensures r == interactions + RowReports(probe, i, |medications|)
    {
      r := interactions;
      for j := i + 1 to |medications|
        invariant r == interactions + RowReports(probe, i, j)
      {
        ghost var before := r;
        r := CheckPair(table, medications, i, j, r, probe);
        RowReportsGrow(probe, i, j, interactions, before, r);
      }
    }

    /** The body of the inner loop of `_check_interactions`: the table entry
        for medications i and j, if any, is appended with both names
        title-cased. */
    static method CheckPair(table: InteractionTable, medications: seq<Medication>, i: nat, j: nat,
                            interactions: seq<Interaction>, ghost probe: Probe) returns (r: seq<Interaction>)
      requires i < j < |medications| && ProbesRow(probe, table, medications, i)
      ensures r == interactions + probe(i, j)
    {
      assert probe(i, j) == HitAt(table, medications, i, j);
      r := interactions;
      var drug1 := Key(medications[i].name);
      var drug2 := Key(medications[j].name);
      var interactionKey := ProbeKey(drug1, drug2);
      if interactionKey in table {
        var info := table[interactionKey];
        r := r + [Interaction(Title(medications[i].name), Title(medications[j].name),
                              info.severity, info.description)];
      }
    }

    /** `_calculate_safety_score` */
    method CalculateSafetyScore(interactions: seq<Interaction>, findings: seq<MedFinding>) returns (score: int)
      ensures score == SafetyScore(interactions, findings)
      ensures 0 <= score <= 100
    {
      var baseScore := 100;
      for i := 0 to |interactions|
        invariant baseScore == 100 - InteractionDeductions(interactions[..i])
      {
        assert interactions[..i + 1][..i] == interactions[..i];
        if interactions[i].severity == "high" {
          baseScore := baseScore - 30;
        } else if interactions[i].severity == "moderate" {
          baseScore := baseScore - 15;
        } else {
          baseScore := baseScore - 5;
        }
      }
      assert interactions[..|interactions|] == interactions;
      for i := 0 to |findings|
        invariant baseScore == 100 - InteractionDeductions(interactions) - MedicationDeductions(findings[..i])
      {
        assert findings[..i + 1][..i] == findings[..i];
        var med := findings[i];
        baseScore := baseScore - |med.warnings| * 5;
        if !med.ageAppropriate {
          baseScore := baseScore - 20;
        }
        if !med.dosageAppropriate {
          baseScore := baseScore - 10;
        }
        if !med.foundInDatabase {
          baseScore := baseScore - 15;
        }
      }
      assert findings[..|findings|] == findings;
      score := if baseScore < 0 then 0 else baseScore;
    }

    /** The interaction loop of `_generate_recommendations`: a high-risk
        line for each high interaction, a moderate-risk line for each
        moderate one, nothing for any other severity. */
    static method AdviseOnInteractions(recommendations: seq<string>, interactions: seq<Interaction>)
      returns (r: seq<string>)
      ensures r == recommendations + InteractionAdvices(interactions)
    {
      r := recommendations;
      assert interactions[..0] == [];
      for i := 0 to |interactions|
        invariant r == recommendations + InteractionAdvices(interactions[..i])
      {
        ghost var before := r;
        var interaction := interactions[i];
        if interaction.severity == "high" {
          r := r + [HighRiskLine(interaction)];
        } else if interaction.severity == "moderate" {
          r := r + [ModerateRiskLine(interaction)];
        }
        InteractionAdvicesGrow(interactions, i, recommendations, before, r);
      }
      assert interactions[..|interactions|] == interactions;
    }

    /** The advisories `_generate_recommendations` gives for one finding:
        the age, warnings and not-found lines, each when it applies, in that
        order. */
    static method AdviseOnMedication(recommendations: seq<string>, med: MedFinding) returns (r: seq<string>)
      ensures r == recommendations + MedicationAdvice(med)
    {
      r := recommendations;
      if !med.ageAppropriate {
        r := r + [AgeConcernLine(med)];
      }
      ghost var aged := r;
      if med.warnings != [] {
        r := r + [WarningsLine(med)];
      }
      ghost var warned := r;
      if !med.foundInDatabase {
        r := r + [NotInDatabaseLine(med)];
      }
      assert aged == recommendations + AgeAdvice(med);
      assert warned == aged + WarningsAdvice(med);
      assert r == warned + UnknownAdvice(med);
    }

    /** The medication loop of `_generate_recommendations`. */
    static method AdviseOnMedications(recommendations: seq<string>, findings: seq<MedFinding>)
      returns (r: seq<string>)
      ensures r == recommendations + MedicationAdvices(findings)
    {
      r := recommendations;
      assert findings[..0] == [];
      for i := 0 to |findings|
        invariant r == recommendations + MedicationAdvices(findings[..i])
      {
        ghost var before := r;
        r := AdviseOnMedication(r, findings[i]);
        MedicationAdvicesGrow(findings, i, recommendations, before, r);
      }
      assert findings[..|findings|] == findings;
    }

    /** `_generate_recommendations` */
    method GenerateRecommendations(score: int, interactions: seq<Interaction>, findings: seq<MedFinding>)
      returns (recommendations: seq<string>)
      ensures recommendations == Recommendations(score, interactions, findings)
    {
      recommendations := [];
      if score < 70 {
        recommendations := recommendations + [Urgent];
      }
      assert recommendations == if score < 70 then [Urgent] else [];
      recommendations := AdviseOnInteractions(recommendations, interactions);
      recommendations := AdviseOnMedications(recommendations, findings);
      assert recommendations == Concerns(score, interactions, findings);
      recommendations := CloseRecommendations(recommendations);
    }

    /** The closing lines of `_generate_recommendations`: the all-clear line
        when nothing was said so far, then the three general lines. */
    static method CloseRecommendations(concerns: seq<string>) returns (r: seq<string>)
      ensures r == (if concerns == [] then [AllClear] else concerns) + GeneralAdvice
    {
      r := concerns;
      if r == [] {
        r := r + [AllClear];
      }
      ghost var opening := r;
      r := r + [TakeAsPrescribed];
      r := r + [KeepTiming];
      r := r + [StayHydrated];
      assert r == opening + GeneralAdvice;
    }
  }

  /** An empty prescription scores 100 and gets exactly four
      recommendations: the all-clear line and the three general lines. */
  lemma EmptyPrescription(patient: Patient)
    ensures var a := AnalysisOf(Drugs, Interactions, patient, []);
      a.medications == [] && a.interactions == [] && a.safetyScore == 100 &&
      a.recommendations == [AllClear] + GeneralAdvice && |a.recommendations| == 4
  {
    CheckedOfFewMedications(Interactions, []);
  }

  /** The finding for a drug the table does not know. */
  lemma UnknownFinding(db: DrugTable, age: int, med: Medication)
    requires Key(med.name) !in db
    ensures var f := AnalyzeMedication(db, age, med);
      !f.foundInDatabase && f.ageAppropriate && f.dosageAppropriate &&
      f.warnings == [NotFoundWarning] && f.alternatives == [ConsultAlternative] &&
      MedicationPenalty(f) == 20 &&
      MedicationAdvice(f) == [WarningsLine(f), NotInDatabaseLine(f)]
  {
    MedicationPenaltyOfAnalysis(db, age, med);
  }

  /** A drug the table does not know, prescribed alone, whatever the tables
      hold: one finding marked not found, age- and dosage-appropriate, with
      the single not-found warning and the single consult alternative; the
      score is 80 ("SAFE"), and the advice is the warnings line, the
      not-in-database line and the three general lines. */
  lemma UnknownDrugAlone(db: DrugTable, table: InteractionTable, patient: Patient, med: Medication)
    requires Key(med.name) !in db
    ensures var a := AnalysisOf(db, table, patient, [med]);
      |a.medications| == 1 && !a.medications[0].foundInDatabase &&
      a.medications[0].ageAppropriate && a.medications[0].dosageAppropriate &&
      a.medications[0].warnings == [NotFoundWarning] &&
      a.medications[0].alternatives == [ConsultAlternative] &&
      a.interactions == [] && a.safetyScore == 80 && Status(a.safetyScore) == "SAFE" &&
      a.recommendations ==
        [WarningsLine(a.medications[0]), NotInDatabaseLine(a.medications[0])] + GeneralAdvice
  {
    var f := AnalyzeMedication(db, patient.age, med);
    var fs := Findings(db, patient.age, [med]);
    assert fs == [f];
    UnknownFinding(db, patient.age, med);
    CheckedOfFewMedications(table, [med]);
    MedicationDeductionsOfFew(f, f);
    assert SafetyScore([], fs) == 80;
    assert MedicationAdvices(fs) == MedicationAdvice(f) by {
      assert fs[..0] == [];
    }
    assert Concerns(80, [], fs) == [WarningsLine(f), NotInDatabaseLine(f)];
  }

  /** The table's warfarin-aspirin entry is never found. */
  lemma WarfarinThenAspirinUnreported(warfarin: Medication, aspirin: Medication)
    requires Key(warfarin.name) == "warfarin" && Key(aspirin.name) == "aspirin"
    ensures CheckedInteractions(Interactions, [warfarin, aspirin]) == []
  {
    CheckedOfFewMedications(Interactions, [warfarin, aspirin]);
    WarfarinAspirinAndSelfPairsUnreported("warfarin");
  }

  /** The findings of a two-medication prescription, whatever the table. */
  lemma FindingsOfTwo(db: DrugTable, age: int, m1: Medication, m2: Medication)
    ensures Findings(db, age, [m1, m2]) == [AnalyzeMedication(db, age, m1), AnalyzeMedication(db, age, m2)]
  {
    var fs := Findings(db, age, [m1, m2]);
    assert fs[0] == AnalyzeMedication(db, age, m1) && fs[1] == AnalyzeMedication(db, age, m2);
  }

  /** Warfarin has no record in the drug table, so it costs the 20 points of
      an unknown drug. */
  lemma WarfarinPenalty(age: int, warfarin: Medication)
    requires Key(warfarin.name) == "warfarin"
    ensures MedicationPenalty(AnalyzeMedication(Drugs, age, warfarin)) == 20
  {
    assert "warfarin" !in Drugs;
    UnknownFinding(Drugs, age, warfarin);
  }

  /** The score of warfarin followed by aspirin for a patient of 16 or
      older: warfarin is unknown (20 points) and aspirin carries three
      contraindications (15 points). */
  lemma WarfarinThenAspirinScore(age: int, warfarin: Medication, aspirin: Medication)
    requires Key(warfarin.name) == "warfarin" && Key(aspirin.name) == "aspirin"
    requires age >= 16
    ensures SafetyScore([], Findings(Drugs, age, [warfarin, aspirin])) == 65
  {
    var f, g := AnalyzeMedication(Drugs, age, warfarin), AnalyzeMedication(Drugs, age, aspirin);
    FindingsOfTwo(Drugs, age, warfarin, aspirin);
    WarfarinPenalty(age, warfarin);
    AspirinPenalty(age, aspirin);
    MedicationDeductionsOfFew(f, g);
  }

  /** Warfarin followed by aspirin, for a patient of 16 or older: the table's
      high-severity warfarin-aspirin entry is never found, so there is no
      interaction, the score is 65 and the urgent line comes first. */
  lemma WarfarinThenAspirin(patient: Patient, warfarin: Medication, aspirin: Medication)
    requires Key(warfarin.name) == "warfarin" && Key(aspirin.name) == "aspirin"
    requires patient.age >= 16
    ensures var a := AnalysisOf(Drugs, Interactions, patient, [warfarin, aspirin]);
      a.interactions == [] && a.safetyScore == 65 && a.recommendations[0] == Urgent
  {
    WarfarinThenAspirinUnreported(warfarin, aspirin);
    WarfarinThenAspirinScore(patient.age, warfarin, aspirin);
    UrgentIffLowScore(65, [], Findings(Drugs, patient.age, [warfarin, aspirin]));
  }

  /** Aspirin for a patient of 16 or older costs 15 points: its three
      contraindications. */
  lemma AspirinPenalty(age: int, aspirin: Medication)
    requires Key(aspirin.name) == "aspirin" && age >= 16
    ensures MedicationPenalty(AnalyzeMedication(Drugs, age, aspirin)) == 15
  {
    DrugTableAgeGates("aspirin", age);
    MedicationPenaltyOfAnalysis(Drugs, age, aspirin);
    assert |Drugs["aspirin"].contraindications| == 3;
  }

  /** Ibuprofen costs 15 points at any age: its three contraindications. */
  lemma IbuprofenPenalty(age: int, ibuprofen: Medication)
    requires Key(ibuprofen.name) == "ibuprofen"
    ensures MedicationPenalty(AnalyzeMedication(Drugs, age, ibuprofen)) == 15
  {
    DrugTableAgeGates("ibuprofen", age);
    MedicationPenaltyOfAnalysis(Drugs, age, ibuprofen);
    assert |Drugs["ibuprofen"].contraindications| == 3;
  }

  /** Aspirin and ibuprofen, in either order, make exactly one moderate
      interaction report, naming the earlier medication first. */
  lemma AspirinWithIbuprofenReported(first: Medication, second: Medication)
    requires SamePair(Key(first.name), Key(second.name), "aspirin", "ibuprofen")
    ensures CheckedInteractions(Interactions, [first, second]) ==
      [Interaction(Title(first.name), Title(second.name), "moderate", "Increased GI bleeding risk")]
  {
    CheckedOfFewMedications(Interactions, [first, second]);
    OnlyTwoInteractionsReachable(Key(first.name), Key(second.name));
  }

  /** Aspirin and ibuprofen, in either order, for a patient of 16 or older:
      exactly one moderate interaction, naming the earlier medication first;
      the score is 100 - 15 - 15 - 15 = 55, "HIGH RISK". */
  lemma AspirinWithIbuprofen(patient: Patient, first: Medication, second: Medication)
    requires SamePair(Key(first.name), Key(second.name), "aspirin", "ibuprofen")
    requires patient.age >= 16
    ensures var a := AnalysisOf(Drugs, Interactions, patient, [first, second]);
      a.interactions ==
        [Interaction(Title(first.name), Title(second.name), "moderate", "Increased GI bleeding risk")] &&
      a.safetyScore == 55 && Status(a.safetyScore) == "HIGH RISK"
  {
    var meds := [first, second];
    var f, g := AnalyzeMedication(Drugs, patient.age, first), AnalyzeMedication(Drugs, patient.age, second);
    FindingsOfTwo(Drugs, patient.age, first, second);
    var x := Interaction(Title(first.name), Title(second.name), "moderate", "Increased GI bleeding risk");
    AspirinWithIbuprofenReported(first, second);
    InteractionDeductionsOfOne(x);
    if Key(first.name) == "aspirin" {
      AspirinPenalty(patient.age, first);
      IbuprofenPenalty(patient.age, second);
    } else {
      IbuprofenPenalty(patient.age, first);
      AspirinPenalty(patient.age, second);
    }
    MedicationDeductionsOfFew(f, g);
  }
}
