/** The verifier's static knowledge: the drug table, the interaction table and
    the age-bracket table, exactly as they are built when the verifier is
    constructed, and the sorted-pair probe used to look up an interaction. */
module KnowledgeBase {
  import opened PyStr

  datatype Option<T> = None | Some(value: T)

  /** One drug record of the drug table. */
  datatype DrugInfo = DrugInfo(
    genericName: string,
    category: string,
    adultDosage: string,
    maxDaily: string,
    pediatricDosage: string,
    contraindications: seq<string>,
    sideEffects: seq<string>,
    alternatives: seq<string>,
    interactions: seq<string>)

  /** One entry of the interaction table. */
  datatype InteractionInfo = InteractionInfo(severity: string, description: string)

  /** One age bracket; both ends are inclusive.  The weight factor the source
      also stores is never read and is not part of the model. */
  datatype AgeBracket = AgeBracket(minAge: int, maxAge: int)

  type DrugTable = map<string, DrugInfo>
  type InteractionTable = map<(string, string), InteractionInfo>

  /** Paracetamol and acetaminophen are two keys with identical records. */
  const AcetaminophenInfo := DrugInfo(
    "Acetaminophen", "Analgesic/Antipyretic", "500-1000mg every 4-6 hours", "4000mg",
    "10-15mg/kg every 4-6 hours",
    ["liver disease", "alcohol dependency"],
    ["nausea", "skin rash", "liver toxicity"],
    ["ibuprofen", "aspirin", "diclofenac"],
    ["warfarin", "alcohol"])

  const IbuprofenInfo := DrugInfo(
    "Ibuprofen", "NSAID", "200-400mg every 4-6 hours", "1200mg",
    "5-10mg/kg every 6-8 hours",
    ["kidney disease", "heart disease", "stomach ulcers"],
    ["stomach upset", "dizziness", "kidney problems"],
    ["paracetamol", "naproxen", "aspirin"],
    ["warfarin", "ace inhibitors"])

  const AmoxicillinInfo := DrugInfo(
    "Amoxicillin", "Antibiotic", "250-500mg every 8 hours", "1500mg",
    "25-45mg/kg/day divided every 12 hours",
    ["penicillin allergy"],
    ["diarrhea", "nausea", "allergic reaction"],
    ["azithromycin", "cephalexin", "doxycycline"],
    ["methotrexate", "oral contraceptives"])

  const MetforminInfo := DrugInfo(
    "Metformin", "Antidiabetic", "500mg twice daily", "2000mg",
    "Not recommended under 10 years",
    ["kidney disease", "liver disease"],
    ["nausea", "diarrhea", "metallic taste"],
    ["glipizide", "insulin", "gliclazide"],
    ["alcohol", "contrast dyes"])

  const AtorvastatinInfo := DrugInfo(
    "Atorvastatin", "Statin", "10-20mg once daily", "80mg",
    "Not recommended under 10 years",
    ["liver disease", "pregnancy"],
    ["muscle pain", "liver problems"],
    ["rosuvastatin", "simvastatin", "pravastatin"],
    ["warfarin", "digoxin"])

  const AspirinInfo := DrugInfo(
    "Acetylsalicylic Acid", "NSAID/Antiplatelet", "325-650mg every 4 hours", "3900mg",
    "Not recommended under 16 years (Reye syndrome risk)",
    ["bleeding disorders", "stomach ulcers", "asthma"],
    ["stomach bleeding", "tinnitus", "allergic reactions"],
    ["paracetamol", "ibuprofen", "naproxen"],
    ["warfarin", "alcohol", "methotrexate"])

  const LisinoprilInfo := DrugInfo(
    "Lisinopril", "ACE Inhibitor", "5-10mg once daily", "40mg",
    "Weight-based dosing required",
    ["pregnancy", "bilateral renal artery stenosis"],
    ["dry cough", "dizziness", "hyperkalemia"],
    ["losartan", "amlodipine", "enalapril"],
    ["potassium supplements", "lithium"])

  const Drugs: DrugTable := map[
    "paracetamol" := AcetaminophenInfo,
    "acetaminophen" := AcetaminophenInfo,
    "ibuprofen" := IbuprofenInfo,
    "amoxicillin" := AmoxicillinInfo,
    "metformin" := MetforminInfo,
    "atorvastatin" := AtorvastatinInfo,
    "aspirin" := AspirinInfo,
    "lisinopril" := LisinoprilInfo
  ]

  /** The interaction table with its keys in the order they are written: six of
      the eight are not in ascending order. */
  const Interactions: InteractionTable := map[
    ("warfarin", "paracetamol") := InteractionInfo("moderate", "Increased bleeding risk with high doses"),
    ("warfarin", "acetaminophen") := InteractionInfo("moderate", "Increased bleeding risk with high doses"),
    ("warfarin", "ibuprofen") := InteractionInfo("high", "Significantly increased bleeding risk"),
    ("warfarin", "aspirin") := InteractionInfo("high", "Major bleeding risk - avoid combination"),
    ("metformin", "alcohol") := InteractionInfo("high", "Risk of lactic acidosis"),
    ("ibuprofen", "lisinopril") := InteractionInfo("moderate", "Reduced kidney function"),
    ("aspirin", "ibuprofen") := InteractionInfo("moderate", "Increased GI bleeding risk"),
    ("atorvastatin", "amoxicillin") := InteractionInfo("low", "Minor interaction - monitor")
  ]

  /** The age brackets in the order the source's dictionary iterates them. */
  const Brackets: seq<(string, AgeBracket)> := [
    ("pediatric", AgeBracket(0, 12)),
    ("adolescent", AgeBracket(13, 17)),
    ("adult", AgeBracket(18, 64)),
    ("elderly", AgeBracket(65, 120))
  ]

  /** The unordered pair {x, y} as the two arguments of a probe. */
  predicate SamePair(d1: string, d2: string, x: string, y: string) {
    (d1 == x && d2 == y) || (d1 == y && d2 == x)
  }

  /** `tuple(sorted([d1, d2]))`: the two names in ascending order. */
  function ProbeKey(d1: string, d2: string): (k: (string, string))
    ensures LexLessEq(k.0, k.1)
    ensures SamePair(d1, d2, k.0, k.1)
  {
    LexTotal(d1, d2);
    if LexLessEq(d1, d2) then (d1, d2) else (d2, d1)
  }

  /** The interaction table probed with the sorted pair of two (already
      normalised) names. */
  function LookupInteraction(table: InteractionTable, d1: string, d2: string): Option<InteractionInfo> {
    var k := ProbeKey(d1, d2);
    if k in table then Some(table[k]) else None
  }

  /** The probe does not depend on the order of its two arguments. */
  lemma LookupSymmetric(table: InteractionTable, d1: string, d2: string)
    ensures LookupInteraction(table, d1, d2) == LookupInteraction(table, d2, d1)
  {
    if LexLessEq(d1, d2) && LexLessEq(d2, d1) {
      LexAntisymmetric(d1, d2);
    }
  }

  /** A table entry is reachable by some probe exactly when its key is already
      in ascending order. */
  lemma ReachableIffAscending(table: InteractionTable, k: (string, string))
    requires k in table
    ensures (exists d1, d2 :: ProbeKey(d1, d2) == k) <==> LexLessEq(k.0, k.1)
  {
    if LexLessEq(k.0, k.1) {
      assert ProbeKey(k.0, k.1) == k;
    }
  }

  /** The two keys of the interaction table that are in ascending order. */
  lemma AscendingKeys(k: (string, string))
    requires k in Interactions && LexLessEq(k.0, k.1)
    ensures k == ("aspirin", "ibuprofen") || k == ("ibuprofen", "lisinopril")
  {
    assert !LexLessEq("warfarin", "paracetamol");
    assert !LexLessEq("warfarin", "acetaminophen");
    assert !LexLessEq("warfarin", "ibuprofen");
    assert !LexLessEq("warfarin", "aspirin");
    assert !LexLessEq("metformin", "alcohol");
    assert !LexLessEq("atorvastatin", "amoxicillin");
  }

  /** Probing with a pair of distinct names yields those names sorted. */
  lemma ProbeOfPair(d1: string, d2: string, x: string, y: string)
    requires SamePair(d1, d2, x, y) && LexLessEq(x, y) && !LexLessEq(y, x)
    ensures ProbeKey(d1, d2) == (x, y)
  {}

  /** Of the eight entries of the interaction table only two can ever be
      found: aspirin with ibuprofen, and ibuprofen with lisinopril, in either
      argument order.  Warfarin with anything, metformin with alcohol and
      atorvastatin with amoxicillin are never reported. */
  lemma OnlyTwoInteractionsReachable(d1: string, d2: string)
    ensures LookupInteraction(Interactions, d1, d2).Some? <==>
      (SamePair(d1, d2, "aspirin", "ibuprofen") || SamePair(d1, d2, "ibuprofen", "lisinopril"))
    ensures SamePair(d1, d2, "aspirin", "ibuprofen") ==>
      LookupInteraction(Interactions, d1, d2) == Some(InteractionInfo("moderate", "Increased GI bleeding risk"))
    ensures SamePair(d1, d2, "ibuprofen", "lisinopril") ==>
      LookupInteraction(Interactions, d1, d2) == Some(InteractionInfo("moderate", "Reduced kidney function"))
  {
    var k := ProbeKey(d1, d2);
    if k in Interactions {
      AscendingKeys(k);
    }
    if SamePair(d1, d2, "aspirin", "ibuprofen") {
      assert LexLessEq("aspirin", "ibuprofen") && !LexLessEq("ibuprofen", "aspirin");
      ProbeOfPair(d1, d2, "aspirin", "ibuprofen");
    }
    if SamePair(d1, d2, "ibuprofen", "lisinopril") {
      assert LexLessEq("ibuprofen", "lisinopril") && !LexLessEq("lisinopril", "ibuprofen");
      ProbeOfPair(d1, d2, "ibuprofen", "lisinopril");
    }
  }

  /** Two consequences the verifier's callers see: warfarin with aspirin is
      never reported, in either order, and no name interacts with itself. */
  lemma WarfarinAspirinAndSelfPairsUnreported(d: string)
    ensures LookupInteraction(Interactions, "warfarin", "aspirin") == None
    ensures LookupInteraction(Interactions, "aspirin", "warfarin") == None
    ensures LookupInteraction(Interactions, d, d) == None
  {
    OnlyTwoInteractionsReachable("warfarin", "aspirin");
    OnlyTwoInteractionsReachable("aspirin", "warfarin");
    OnlyTwoInteractionsReachable(d, d);
  }
}
