/** `extract_medications_from_text`: how regular-expression matches become
    medication records, and the whitespace-token fallback used when no
    pattern matched.  The regular-expression engine is not modelled: the
    matches of each of the four patterns, in pattern order, are the input. */
module TextExtractor {
  import opened PyStr
  import opened KnowledgeBase
  import opened MedicationEvaluator

  /** One match: group 1 (the drug word), group 2 (the amount) and, for the
      two patterns that have one, group 3 (the hours or the times per day). */
  datatype RegexMatch = RegexMatch(drug: string, amount: string, third: Option<string>)

  const AsPrescribed := "as prescribed"

  /** The record built from one match: the amount always gets the unit "mg",
      whatever unit matched, and a numeric third group always reads as
      "times daily", also when it counted hours. */
  function RecordOf(m: RegexMatch): (med: Medication)
    ensures med.name == Capitalize(m.drug)
    ensures |med.dosage| >= 2 && med.dosage[|med.dosage| - 2..] == "mg" &&
            med.dosage[..|med.dosage| - 2] == m.amount
    ensures med.frequency == AsPrescribed <==> !(m.third.Some? && IsDigits(m.third.value))
    ensures m.third.Some? && IsDigits(m.third.value) ==>
              med.frequency == m.third.value + " times daily"
  {
    var frequency :=
      if m.third.Some? && IsDigits(m.third.value) then m.third.value + " times daily"
      else AsPrescribed;
    assert m.third.Some? && IsDigits(m.third.value) ==> frequency[0] != AsPrescribed[0];
    Medication(Capitalize(m.drug), m.amount + "mg", frequency)
  }

  /** The records of one pattern's matches, in match order. */
  function PatternRecords(ms: seq<RegexMatch>): seq<Medication> {
    if ms == [] then [] else PatternRecords(ms[..|ms| - 1]) + [RecordOf(ms[|ms| - 1])]
  }

  /** The records of all patterns, grouped by pattern. */
  function MatchRecords(pp: seq<seq<RegexMatch>>): seq<Medication> {
    if pp == [] then [] else MatchRecords(pp[..|pp| - 1]) + PatternRecords(pp[|pp| - 1])
  }

  function TotalMatches(pp: seq<seq<RegexMatch>>): nat {
    if pp == [] then 0 else TotalMatches(pp[..|pp| - 1]) + |pp[|pp| - 1]|
  }

  /** `any(unit in word.lower() for unit in ['mg', 'g', 'ml'])` */
  predicate HasUnit(word: string) {
    Contains(Lower(word), "mg") || Contains(Lower(word), "g") || Contains(Lower(word), "ml")
  }

  /** The fallback records for the first k words. */
  function FallbackUpTo(words: seq<string>, k: nat): seq<Medication>
    requires k <= |words|
  {
    if k == 0 then []
    else
      FallbackUpTo(words, k - 1) +
      (if k - 1 > 0 && HasUnit(words[k - 1])
       then [Medication(Capitalize(words[k - 2]), words[k - 1], AsPrescribed)]
       else [])
  }

  function Fallback(words: seq<string>): seq<Medication> { FallbackUpTo(words, |words|) }

  /** What `extract_medications_from_text` returns for `text`, given the
      matches of each pattern. */
  function Extracted(text: string, pp: seq<seq<RegexMatch>>): seq<Medication> {
    var records := MatchRecords(pp);
    if records != [] then records else Fallback(Split(text))
  }

  method ExtractMedicationsFromText(text: string, pp: seq<seq<RegexMatch>>) returns (medications: seq<Medication>)
    ensures medications == Extracted(text, pp)
  {
    medications := [];
    for p := 0 to |pp|
      invariant medications == MatchRecords(pp[..p])
    {
      assert pp[..p + 1][..p] == pp[..p];
      medications := AppendPatternRecords(medications, pp[p]);
    }
    assert pp[..|pp|] == pp;
    if medications == [] {
      medications := ScanTokens(Split(text));
    }
  }

  /** The loop over one pattern's matches. */
  method AppendPatternRecords(acc: seq<Medication>, ms: seq<RegexMatch>) returns (medications: seq<Medication>)
    ensures medications == acc + PatternRecords(ms)
  {
    medications := acc;
    for q := 0 to |ms|
      invariant medications == acc + PatternRecords(ms[..q])
    {
      var med := BuildRecord(ms[q]);
      assert ms[..q + 1][..q] == ms[..q];
      medications := medications + [med];
    }
    assert ms[..|ms|] == ms;
  }

  /** The body of the match loop: one record from one match. */
  method BuildRecord(m: RegexMatch) returns (med: Medication)
    ensures med == RecordOf(m)
  {
    var medName := Capitalize(m.drug);
    var dosage := m.amount + "mg";
    var frequency;
    if m.third.Some? {
      frequency := if IsDigits(m.third.value) then m.third.value else AsPrescribed;
      if IsDigits(frequency) {
        frequency := frequency + " times daily";
      }
    } else {
      frequency := AsPrescribed;
    }
    assert !IsDigits(AsPrescribed) by { assert !IsDigit(AsPrescribed[0]); }
    med := Medication(medName, dosage, frequency);
  }

  /** The whitespace-token fallback loop. */
  method ScanTokens(words: seq<string>) returns (medications: seq<Medication>)
    ensures medications == Fallback(words)
  {
    medications := [];
    for i := 0 to |words|
      invariant medications == FallbackUpTo(words, i)
    {
      if HasUnit(words[i]) {
        if i > 0 {
          medications := medications + [Medication(Capitalize(words[i - 1]), words[i], AsPrescribed)];
        }
      }
    }
  }

  lemma {:induction false} PatternRecordsMeaning(ms: seq<RegexMatch>)
    ensures |PatternRecords(ms)| == |ms|
    ensures forall q :: 0 <= q < |ms| ==> PatternRecords(ms)[q] == RecordOf(ms[q])
  {
    if ms != [] {
      var init := ms[..|ms| - 1];
      PatternRecordsMeaning(init);
      var r := PatternRecords(ms);
      assert r == PatternRecords(init) + [RecordOf(ms[|ms| - 1])];
      forall q | 0 <= q < |ms| ensures r[q] == RecordOf(ms[q]) {
        if q < |ms| - 1 {
          assert r[q] == PatternRecords(init)[q] && ms[q] == init[q];
        }
      }
    }
  }

  /** One record per match, duplicates kept: the regex records number
      exactly the matches of all four patterns together, and each is the
      record of some match. */
  lemma {:induction false} MatchRecordsMeaning(pp: seq<seq<RegexMatch>>)
    ensures |MatchRecords(pp)| == TotalMatches(pp)
    ensures forall r :: r in MatchRecords(pp) ==>
      exists p, q :: 0 <= p < |pp| && 0 <= q < |pp[p]| && r == RecordOf(pp[p][q])
  {
    if pp != [] {
      var init, last := pp[..|pp| - 1], pp[|pp| - 1];
      MatchRecordsMeaning(init);
      PatternRecordsMeaning(last);
      forall r | r in MatchRecords(pp)
        ensures exists p, q :: 0 <= p < |pp| && 0 <= q < |pp[p]| && r == RecordOf(pp[p][q])
      {
        if r in MatchRecords(init) {
          var p, q :| 0 <= p < |init| && 0 <= q < |init[p]| && r == RecordOf(init[p][q]);
          assert pp[p] == init[p];
        } else {
          var q :| 0 <= q < |last| && PatternRecords(last)[q] == r;
          assert r == RecordOf(pp[|pp| - 1][q]);
        }
      }
    }
  }

  lemma {:induction false} TotalMatchesZero(pp: seq<seq<RegexMatch>>)
    ensures TotalMatches(pp) == 0 <==> forall p :: 0 <= p < |pp| ==> pp[p] == []
  {
    if pp != [] {
      TotalMatchesZero(pp[..|pp| - 1]);
      assert forall p :: 0 <= p < |pp| - 1 ==> pp[..|pp| - 1][p] == pp[p];
    }
  }

  /** The token scan runs only when no pattern matched at all; otherwise the
      regex records are the whole result. */
  lemma FallbackOnlyWithoutMatches(text: string, pp: seq<seq<RegexMatch>>)
    ensures (exists p :: 0 <= p < |pp| && pp[p] != []) ==> Extracted(text, pp) == MatchRecords(pp)
    ensures (forall p :: 0 <= p < |pp| ==> pp[p] == []) ==> Extracted(text, pp) == Fallback(Split(text))
  {
    MatchRecordsMeaning(pp);
    TotalMatchesZero(pp);
  }

  /** A fallback record is made from a token at index at least 1 that holds a
      unit, named after the token before it, capitalised; there is at most
      one per token after the first. */
  lemma {:induction false} FallbackMeaning(words: seq<string>, k: nat, r: Medication)
    requires k <= |words|
    ensures r in FallbackUpTo(words, k) <==>
      exists i :: 1 <= i < k && HasUnit(words[i]) &&
        r == Medication(Capitalize(words[i - 1]), words[i], AsPrescribed)
  {
    if r in FallbackUpTo(words, k) {
      FallbackSound(words, k, r);
    }
    if exists i :: 1 <= i < k && HasUnit(words[i]) &&
        r == Medication(Capitalize(words[i - 1]), words[i], AsPrescribed) {
      var i :| 1 <= i < k && HasUnit(words[i]) &&
        r == Medication(Capitalize(words[i - 1]), words[i], AsPrescribed);
      FallbackHas(words, k, i);
    }
  }

  /** Every fallback record comes from a token holding a unit and the token before it. */
  lemma {:induction false} FallbackSound(words: seq<string>, k: nat, r: Medication)
    requires k <= |words| && r in FallbackUpTo(words, k)
    ensures exists i ::
      1 <= i < k && HasUnit(words[i]) &&
      r == Medication(Capitalize(words[i - 1]), words[i], AsPrescribed)
  {
    var before := FallbackUpTo(words, k - 1);
    if r in before {
      FallbackSound(words, k - 1, r);
    } else {
      assert 1 <= k - 1 < k && HasUnit(words[k - 1]) &&
        r == Medication(Capitalize(words[k - 1 - 1]), words[k - 1], AsPrescribed);
    }
  }

  /** Every token past the first that holds a unit yields its record. */
  lemma {:induction false} FallbackHas(words: seq<string>, k: nat, i: nat)
    requires 1 <= i < k <= |words| && HasUnit(words[i])
    ensures Medication(Capitalize(words[i - 1]), words[i], AsPrescribed) in FallbackUpTo(words, k)
  {
    if i < k - 1 {
      FallbackHas(words, k - 1, i);
    }
  }

  /** The token positions, below k, that yield a fallback record. */
  function UnitPositions(words: seq<string>, k: nat): set<nat>
    requires k <= |words|
  {
    set i: nat | 1 <= i < k && HasUnit(words[i])
  }

  /** Every qualifying token yields its own record, so identical records
      from different tokens all stay: the fallback has exactly one record per
      token at index 1 or more that holds a unit. */
  lemma {:induction false} FallbackCount(words: seq<string>, k: nat)
    requires k <= |words|
    ensures |FallbackUpTo(words, k)| == |UnitPositions(words, k)|
  {
    if k > 0 {
      FallbackCount(words, k - 1);
      var before := UnitPositions(words, k - 1);
      if k - 1 > 0 && HasUnit(words[k - 1]) {
        assert |FallbackUpTo(words, k)| == |FallbackUpTo(words, k - 1)| + 1;
        assert UnitPositions(words, k) == before + {k - 1} by {
          forall i: nat | i in UnitPositions(words, k) ensures i in before + {k - 1} {
            if i < k - 1 { assert i in before; }
          }
        }
        assert k - 1 !in before;
      } else {
        assert |FallbackUpTo(words, k)| == |FallbackUpTo(words, k - 1)|;
        assert UnitPositions(words, k) == before by {
          forall i: nat | i in UnitPositions(words, k) ensures i in before {
            assert i < k - 1;
          }
        }
      }
    }
  }

  /** At most one record per token after the first. */
  lemma {:induction false} FallbackBound(words: seq<string>, k: nat)
    requires k <= |words|
    ensures |FallbackUpTo(words, k)| <= if k == 0 then 0 else k - 1
  {
    if k > 0 {
      FallbackBound(words, k - 1);
    }
  }

  /** The "mg" test decides nothing the "g" test does not. */
  lemma HasUnitWithoutMg(word: string)
    ensures HasUnit(word) <==> Contains(Lower(word), "g") || Contains(Lower(word), "ml")
  {
    if Contains(Lower(word), "mg") {
      MgImpliesG(Lower(word));
    }
  }
}
