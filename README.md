# Prescription verifier — a Dafny model

This project models the rule-based evaluator of the medical prescription
verification app (`app.py`; `app3.py` is a byte-identical copy with the same
line numbers). It covers the following parts:

- **Knowledge base.** The `MedicalPrescriptionVerifier` class holds three
  tables, built once by its constructor and only read afterwards:
  - the drug table, eight records keyed by lower-case name;
  - the interaction table, eight entries keyed by an ordered pair of names;
  - the age-bracket table.
- **Per-medication analysis** (`_analyze_medication`). It looks the name up
  after `lower().strip()`:
  - a known drug gets a finding built from its record;
  - an unknown drug gets a fixed "not found" finding.
- **Age rules.** The age-group classifier, the age gate on the
  pediatric-dosage text, and the dosage check, which always passes.
- **Pairwise interaction check** (`_check_interactions`). It runs nested
  loops over every index pair i < j and probes the table with the sorted
  pair of normalised names.
- **Safety score** and its status bucket.
- **Recommendations.** The ordered rule list, and the constant home-care list.
- **`analyze_prescription`**, which runs all of the above in order.
- **Text extraction.** How a regular-expression match becomes a medication
  record, and the whitespace-token fallback scan.

The class is a Dafny `class` whose three tables are `const` fields set by
the constructor. Each method that loops in the source is a `method` with a
loop. It is proved to compute a specification function, and the properties
the program promises are proved about that function as lemmas:

| Python | Dafny method | specification function |
|---|---|---|
| `_check_interactions` | `CheckInteractions` (helpers `CheckRow`, `CheckPair`) | `CheckedInteractions` |
| `_calculate_safety_score` | `CalculateSafetyScore` | `SafetyScore` |
| `_generate_recommendations` | `GenerateRecommendations` | `Recommendations` |
| `extract_medications_from_text` | `ExtractMedicationsFromText` | `Extracted` |

Python's string operations (`lower`, `strip`, `title`, `capitalize`, `split`,
`join`, `in`, `isdigit`, and `<=` on strings) are modelled on `seq<char>` in
module `PyStr`.

**The interaction table is kept exactly as written, with ordered tuple keys.**
The lookup probes it with `tuple(sorted([drug1, drug2]))`. Six of the eight
keys are not in ascending order, so no probe can reach them. Only "aspirin"
with "ibuprofen" and "ibuprofen" with "lisinopril" can ever be reported
(`KnowledgeBase.OnlyTwoInteractionsReachable`). The table's own entry
`('warfarin', 'aspirin')` (app.py:252) is marked high severity ("Major
bleeding risk - avoid combination"), but no sorted probe can reach it. The
code never reports the pair, and the model follows the code
(`Verifier.WarfarinThenAspirin`).

## Model

| member | source | states |
|---|---|---|
| Verifier.MedicalPrescriptionVerifier.constructor | app.py:148-151 | The three tables are the drug table, the interaction table and the age brackets as written. |
| KnowledgeBase.ProbeKey | app.py:368 | `tuple(sorted([d1, d2]))` holds the same two names, in ascending order. |
| KnowledgeBase.LookupSymmetric | app.py:365-369 | Probing does not depend on the order of the two names. |
| KnowledgeBase.ReachableIffAscending | app.py:249-256 | A table key can be hit by some probe if and only if it is stored in ascending order. |
| KnowledgeBase.AscendingKeys | app.py:249-256 | Only ("aspirin", "ibuprofen") and ("ibuprofen", "lisinopril") are stored in ascending order. |
| KnowledgeBase.OnlyTwoInteractionsReachable | app.py:249-256 | A lookup succeeds if and only if the names are aspirin with ibuprofen or ibuprofen with lisinopril, in either order. It also gives the entry found in each case. |
| KnowledgeBase.WarfarinAspirinAndSelfPairsUnreported | app.py:365-370 | Warfarin with aspirin is never found, in either order, and no name interacts with itself. |
| AgeRules.AgeGroupOf | app.py:338-343 | The result is the group of the first bracket holding the age, with no earlier bracket holding it; with no bracket holding it, the result is "adult". |
| AgeRules.AgeGroupBoundaries | app.py:259-266 | With the verifier's brackets: 0-12 pediatric, 13-17 adolescent, 65-120 elderly, every other age adult. |
| Verifier.MedicalPrescriptionVerifier.GetAgeGroup | app.py:338-343 | The loop returns the first-matching-bracket group of its table, or "adult". |
| AgeRules.AgeAppropriate | app.py:345-352 | Not appropriate if and only if: under 16 and the text contains the 16-year phrase, or under 10 and the text contains the 10-year phrase. |
| AgeRules.DosageAppropriate | app.py:354-357 | Every dosage is appropriate. |
| AgeRules.TenYearGate | app.py:345-352 | A record whose pediatric text is the 10-year phrase is gated exactly below age 10. |
| AgeRules.SixteenYearGate | app.py:345-352 | A record whose pediatric text starts with the 16-year phrase is gated exactly below age 16. |
| AgeRules.NoGate | app.py:345-352 | A pediatric text with no capital N gates nobody. |
| AgeRules.DrugTableAgeGates | app.py:153-244 | In the drug table, aspirin fails below 16, metformin and atorvastatin fail below 10, and everything else is appropriate at every age. |
| MedicationEvaluator.AnalyzeMedication | app.py:298-336 | Name title-cased; dosage and frequency copied; found if and only if the normalised key is in the table; dosage always appropriate. A known drug's warnings, alternatives and age flag come from its record. An unknown drug gets no record, is age-appropriate, and has the single not-found warning and the single consult alternative. |
| Verifier.Findings | app.py:280-282 | One finding per medication, in input order. |
| InteractionChecker.HitAt | app.py:365-376 | A pair reports at most one interaction. |
| InteractionChecker.HitAtMeaning | app.py:365-376 | A pair reports `x` if and only if the table entry for its sorted key matches `x`, with both names title-cased from the input and the earlier medication as `drug1`. |
| InteractionChecker.PairsEnumeration | app.py:363-364 | The nested loops visit exactly the pairs i < j < n, in strictly increasing row-major order: n(n-1)/2 pairs, none twice. |
| InteractionChecker.CollectAppend | app.py:363-376 | Collecting the probes of two runs of pairs gives the reports of the first run, then those of the second. |
| InteractionChecker.RowReportsCollect | app.py:364-376 | Row i reports the probes of its pairs (i, i+1) .. (i, j-1), in that order. |
| InteractionChecker.ReportsBelowCollect | app.py:363-376 | The first i rows report the probes of their pairs, in row-major order. |
| InteractionChecker.RowReportsGrow | app.py:364-376 | Probing one more column of a row appends what that probe reports. |
| InteractionChecker.ProbingProbesRow | app.py:365-370 | The checker's probe reports what `HitAt` does on every row. |
| InteractionChecker.RowReportsMembership | app.py:364-376 | A row reports exactly what the probe reports for one of its columns. |
| InteractionChecker.ReportsBelowMembership | app.py:363-376 | The rows report exactly what the probe reports for the pairs they visit. |
| InteractionChecker.ReportsBelowLength | app.py:363-376 | At most one report per visited pair. |
| InteractionChecker.CheckedInteractionsMeaning | app.py:359-378 | An interaction is reported if and only if it is the table entry found for some pair i < j, named after medications i and j in that order. |
| InteractionChecker.ReportedOnlyForPairs | app.py:359-378 | Every report comes from some pair i < j. |
| InteractionChecker.ReportedForEveryPair | app.py:359-378 | Every pair i < j whose probe hits is reported. |
| InteractionChecker.CheckedInteractionsBound | app.py:359-378 | At most n(n-1)/2 interactions are reported. |
| InteractionChecker.CheckedInteractionsEnumerate | app.py:359-378 | The reports are the probes of the pairs i < j, in row-major order, with nothing merged or dropped: identical reports from different pairs all stay. |
| InteractionChecker.CheckedOfFewMedications | app.py:363-376 | No interactions for fewer than two medications; with two, exactly the probe of that pair. |
| Verifier.MedicalPrescriptionVerifier.CheckInteractions | app.py:359-378 | The nested loops return exactly `CheckedInteractions` of the class's table. |
| Verifier.MedicalPrescriptionVerifier.CheckRow | app.py:364-376 | Row i of the loops appends the reports of columns i+1 .. n-1, in order. |
| Verifier.MedicalPrescriptionVerifier.CheckPair | app.py:365-376 | The loop body appends exactly what probing pair (i, j) reports. |
| SafetyScorer.InteractionPenalty | app.py:385-391 | 30 if and only if high; 15 if and only if moderate; 5 if and only if any other severity. |
| SafetyScorer.SafetyScore | app.py:380-403 | The score is between 0 and 100, and it is 100 if and only if nothing is deducted. |
| SafetyScorer.MedicationDeductionsAppend | app.py:394-401 | Medication deductions add up over concatenation. |
| SafetyScorer.InteractionDeductionsAppend | app.py:385-391 | Interaction deductions add up over concatenation. |
| SafetyScorer.MedicationDeductionsSwap | app.py:394-401 | Swapping two neighbouring findings leaves the deductions unchanged. |
| SafetyScorer.ScoreMonotone | app.py:380-403 | One more medication never raises the score. |
| SafetyScorer.MedicationPenaltyOfAnalysis | app.py:394-401 | An unknown drug costs 20 points. A known drug costs 5 per contraindication, plus 20 if not age-appropriate. |
| SafetyScorer.MedicationDeductionsOfFew | app.py:394-401 | The deductions of one or two findings are their penalties summed. |
| SafetyScorer.InteractionDeductionsOfOne | app.py:385-391 | One interaction deducts its own penalty. |
| Verifier.MedicalPrescriptionVerifier.CalculateSafetyScore | app.py:380-403 | The two deduction loops and the floor compute `SafetyScore`, which lies in 0..100. |
| SafetyScorer.Status | app.py:566-574 | "SAFE" if and only if the score is at least 80; "CAUTION REQUIRED" if and only if 60-79; "HIGH RISK" if and only if below 60. |
| Recommender.InteractionAdvicesGrow | app.py:412-416 | Advising on one more interaction appends its own line: high-risk, moderate-risk, or none. |
| Recommender.MedicationAdvicesGrow | app.py:418-424 | Advising on one more medication appends its age, warnings and not-found lines. |
| Recommender.RecommendationsClose | app.py:426-432 | Every list has at least four lines and ends with the three general lines. |
| Recommender.UrgentColon | app.py:410 | The urgent line's only colon follows "URGENT". |
| Recommender.WarningsLineIsNotUrgent | app.py:409-422 | No warnings line equals the urgent line, whatever the drug name. |
| Recommender.InteractionAdvicesOrdinary | app.py:412-416 | Interaction lines are neither the urgent line nor the all-clear line. |
| Recommender.MedicationAdvicesOrdinary | app.py:418-424 | Medication lines are neither the urgent line nor the all-clear line. |
| Recommender.UrgentIsNotClosing | app.py:409-432 | The urgent line is neither the all-clear line nor a general line. |
| Recommender.NoUrgentWhenSafe | app.py:409-410 | From a score of 70 on, the urgent line does not appear. |
| Recommender.UrgentIffLowScore | app.py:409-410 | The urgent line appears if and only if the score is below 70, and then it comes first. |
| Recommender.InteractionAdvicesEmpty | app.py:412-416 | No interaction lines if and only if no interaction is high or moderate. |
| Recommender.MedicationAdviceEmpty | app.py:419-424 | No lines for a finding if and only if it is known, age-appropriate and has no warnings. |
| Recommender.MedicationAdvicesEmpty | app.py:418-424 | No medication lines if and only if every finding is known, age-appropriate and has no warnings. |
| Recommender.AllClearIff | app.py:409-427 | The all-clear line appears if and only if: the score is at least 70, no interaction is high or moderate, and every medication is known, age-appropriate and has no warnings. |
| Recommender.HomeRemedies | app.py:436-471 | Six home-care entries. |
| Recommender.HomeRemediesIgnoreMedications | app.py:436-471 | The home-care list is the same whatever is prescribed. |
| Verifier.MedicalPrescriptionVerifier.AdviseOnInteractions | app.py:412-416 | The loop appends exactly the interaction lines, in interaction order. |
| Verifier.MedicalPrescriptionVerifier.AdviseOnMedication | app.py:419-424 | For one finding, the age, warnings and not-found lines, each when it applies, in that order. |
| Verifier.MedicalPrescriptionVerifier.AdviseOnMedications | app.py:418-424 | The loop appends exactly the medication lines, in medication order. |
| Verifier.MedicalPrescriptionVerifier.CloseRecommendations | app.py:426-432 | The all-clear line when nothing was said yet, then the three general lines. |
| Verifier.MedicalPrescriptionVerifier.GenerateRecommendations | app.py:405-434 | The method returns exactly `Recommendations` of the score, interactions and findings. |
| Verifier.MedicalPrescriptionVerifier.AnalyzePrescription | app.py:268-296 | One finding per medication, in order. The score (0..100) is computed from all findings and interactions before the recommendations, which are built from that final score. |
| Verifier.EmptyPrescription | app.py:268-296 | An empty prescription scores 100 and gets exactly four lines: all-clear plus the three general lines. |
| Verifier.UnknownFinding | app.py:325-336 | The finding for an unknown drug, and its 20-point penalty. |
| Verifier.UnknownDrugAlone | app.py:268-296 | One unknown drug alone: no interaction; score 80 ("SAFE"); the warnings and not-found lines, then the general lines. |
| Verifier.WarfarinThenAspirinUnreported | app.py:359-378 | Warfarin followed by aspirin yields no interaction. |
| Verifier.FindingsOfTwo | app.py:280-282 | Two medications give their two findings, in order. |
| Verifier.WarfarinPenalty | app.py:153-244 | Warfarin is not in the drug table, so it costs 20 points. |
| Verifier.AspirinPenalty | app.py:222-232 | Aspirin from age 16 costs 15 points (three contraindications). |
| Verifier.IbuprofenPenalty | app.py:178-188 | Ibuprofen costs 15 points at any age. |
| Verifier.WarfarinThenAspirinScore | app.py:380-403 | Warfarin then aspirin, from age 16, scores 65. |
| Verifier.WarfarinThenAspirin | app.py:268-296 | Warfarin then aspirin, from age 16: no interaction, score 65, and the urgent line first. |
| Verifier.AspirinWithIbuprofenReported | app.py:359-378 | Aspirin with ibuprofen, in either order, reports one moderate interaction naming the earlier medication first. |
| Verifier.AspirinWithIbuprofen | app.py:268-296 | Aspirin with ibuprofen, from age 16: that one interaction, score 55, "HIGH RISK". |
| TextExtractor.RecordOf | app.py:488-502 | The drug word capitalised; dosage is the amount followed by "mg", whatever unit matched. A numeric third group gives "<N> times daily", even when it counted hours; otherwise "as prescribed". |
| TextExtractor.PatternRecordsMeaning | app.py:487-502 | One record per match of a pattern, in match order. |
| TextExtractor.MatchRecordsMeaning | app.py:485-502 | The records number exactly the matches of all patterns, duplicates kept, and each record is built from some match. |
| TextExtractor.TotalMatchesZero | app.py:485-502 | There are no matches if and only if every pattern matched nothing. |
| TextExtractor.FallbackOnlyWithoutMatches | app.py:505 | If any pattern matched, the result is the regex records. Otherwise it is the token fallback. |
| TextExtractor.FallbackMeaning | app.py:505-514 | A fallback record comes from a token at index 1 or more that holds a unit: named after the previous token, capitalised, with the token as dosage and "as prescribed" as frequency. Every such token yields its record. |
| TextExtractor.FallbackSound | app.py:505-514 | Every fallback record comes from a token at index 1 or more that holds a unit, and the token before it. |
| TextExtractor.FallbackHas | app.py:505-514 | Every token at index 1 or more that holds a unit yields its record. |
| TextExtractor.FallbackCount | app.py:505-514 | There is exactly one fallback record per token at index 1 or more that holds a unit. |
| TextExtractor.FallbackBound | app.py:505-514 | At most one fallback record per token after the first. |
| TextExtractor.HasUnitWithoutMg | app.py:508 | The "mg" test is subsumed by the "g" test. |
| TextExtractor.AppendPatternRecords | app.py:487-502 | The match loop appends the records of one pattern's matches, in order. |
| TextExtractor.BuildRecord | app.py:488-502 | The loop body builds `RecordOf` the match. |
| TextExtractor.ScanTokens | app.py:506-514 | The fallback loop computes `Fallback` of the tokens. |
| TextExtractor.ExtractMedicationsFromText | app.py:473-516 | The function returns `Extracted`: the regex records if there are any, else the fallback records. |
| PyStr.LexTotal | app.py:368 | Python's string `<=` is total. |
| PyStr.LexAntisymmetric | app.py:368 | Python's string `<=` is antisymmetric. |
| PyStr.MgImpliesG | app.py:508 | A string containing "mg" contains "g". |

## Left out

- The Streamlit page, its session state and CSS, the PDF report and the
  charts are presentation only. The only piece modelled is the
  score-to-status thresholds, which the report and the page share.
- The regular-expression engine (`re.finditer` over the lower-cased text) is
  not modelled. The matches of each of the four patterns, in pattern order,
  are the input to `ExtractMedicationsFromText`. Nothing is proved about
  which substrings match.
- `lower`, `title` and `capitalize` are modelled for ASCII letters only. Other
  characters are left unchanged and count as uncased. Python's full Unicode
  case mapping, and characters whose case mapping changes length, are not
  modelled.
- The patient's weight and the brackets' `weight_factor` are floating-point
  values the evaluation never reads, so they are not modelled.
- `_analyze_medication` computes an age group and discards it. The model
  leaves out that call; `GetAgeGroup` is modelled on its own.
- `.get('dosage', '')` and `.get('frequency', '')` defaults are not
  modelled: a medication always has both fields.
- `drug_info.get('alternatives', [])` and the `'contraindications' in
  drug_info` test are not modelled: every record in the table has both
  fields, so both always read the record's lists.
- Timestamps, `time.sleep` and the unused imports are not modelled.
- TextExtractor.RecordOf: the digit test (`PyStr.IsDigits`) accepts the ASCII
  digits 0-9 only. A third group made of other Unicode decimal digits, which
  `\d` matches and `isdigit` accepts, gives "as prescribed" in the model,
  where the source gives "<N> times daily".
- Recommender.HomeRemedies: the contract states only the number of entries.
  The six entries themselves are the body of `RemedyAt`, and
  `HomeRemediesIgnoreMedications` proves they never depend on the
  prescription.
