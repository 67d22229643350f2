/** The per-medication finding built by `_analyze_medication`. */
module MedicationEvaluator {
  import opened PyStr
  import opened KnowledgeBase
  import opened AgeRules

  /** One prescribed medication, as entered or as extracted from text. */
  datatype Medication = Medication(name: string, dosage: string, frequency: string)

  /** The analysis of one medication. */
  datatype MedFinding = MedFinding(
    name: string,
    dosage: string,
    frequency: string,
    drugInfo: Option<DrugInfo>,
    ageAppropriate: bool,
    dosageAppropriate: bool,
    alternatives: seq<string>,
    warnings: seq<string>,
    foundInDatabase: bool)

  const NotFoundWarning := "Drug not found in database - manual verification required"
  const ConsultAlternative := "Consult healthcare provider for alternatives"

  /** The analysis of `med` for a patient of the given age against the drug
      table `db`, looked up under `name.lower().strip()`. */
  function AnalyzeMedication(db: DrugTable, age: int, med: Medication): (f: MedFinding)
    ensures f.name == Title(med.name) && f.dosage == med.dosage && f.frequency == med.frequency
    ensures f.foundInDatabase <==> Key(med.name) in db
    ensures f.dosageAppropriate
    ensures Key(med.name) in db ==>
      var info := db[Key(med.name)];
      f.drugInfo == Some(info) && f.warnings == info.contraindications &&
      f.alternatives == info.alternatives && f.ageAppropriate == AgeAppropriate(info, age)
    ensures Key(med.name) !in db ==>
      f.drugInfo == None && f.ageAppropriate &&
      f.warnings == [NotFoundWarning] && f.alternatives == [ConsultAlternative]
  {
    var key := Key(med.name);
    if key in db then
      var info := db[key];
      MedFinding(Title(med.name), med.dosage, med.frequency, Some(info),
                 AgeAppropriate(info, age), DosageAppropriate(info, med.dosage, age),
                 info.alternatives, info.contraindications, true)
    else
      MedFinding(Title(med.name), med.dosage, med.frequency, None,
                 true, true, [ConsultAlternative], [NotFoundWarning], false)
  }
}
