/** Age brackets and the age and dosage appropriateness rules applied to one
    drug record. */
module AgeRules {
  import opened PyStr
  import opened KnowledgeBase

  const Under16 := "Not recommended under 16 years"
  const Under10 := "Not recommended under 10 years"

  predicate InBracket(b: (string, AgeBracket), age: int) {
    b.1.minAge <= age <= b.1.maxAge
  }

  /** The first bracket whose inclusive range holds `age`, or "adult" when
      none does. */
  function AgeGroupOf(brackets: seq<(string, AgeBracket)>, age: int): (group: string)
    ensures (exists k :: 0 <= k < |brackets| && InBracket(brackets[k], age) &&
               group == brackets[k].0 &&
               forall m :: 0 <= m < k ==> !InBracket(brackets[m], age))
            || ((forall k :: 0 <= k < |brackets| ==> !InBracket(brackets[k], age)) &&
                group == "adult")
  {
    if brackets == [] then "adult"
    else if InBracket(brackets[0], age) then brackets[0].0
    else
      var g := AgeGroupOf(brackets[1..], age);
      assert forall k :: 1 <= k < |brackets| ==> brackets[k] == brackets[1..][k - 1];
      g
  }

  /** With the verifier's own brackets: pediatric for 0-12, adolescent for
      13-17, adult for 18-64, elderly for 65-120, and adult for every age
      outside 0-120. */
  lemma AgeGroupBoundaries(age: int)
    ensures AgeGroupOf(Brackets, age) ==
      if 0 <= age <= 12 then "pediatric"
      else if 13 <= age <= 17 then "adolescent"
      else if 65 <= age <= 120 then "elderly"
      else "adult"
  {
    var rest1, rest2, rest3 := Brackets[1..], Brackets[2..], Brackets[3..];
    assert rest1 == [Brackets[1], Brackets[2], Brackets[3]];
    assert rest1[1..] == rest2 == [Brackets[2], Brackets[3]];
    assert rest2[1..] == rest3 == [Brackets[3]];
    assert rest3[1..] == [];
  }

  /** `_check_age_appropriateness`: the record's pediatric-dosage text gates
      patients under 16 or under 10 through two fixed phrases. */
  function AgeAppropriate(info: DrugInfo, age: int): (ok: bool)
    ensures !ok <==> (age < 16 && Contains(info.pediatricDosage, Under16)) ||
                     (age < 10 && Contains(info.pediatricDosage, Under10))
  {
    if age < 16 && Contains(info.pediatricDosage, Under16) then false
    else if age < 10 && Contains(info.pediatricDosage, Under10) then false
    else true
  }

  /** `_check_dosage_appropriateness`: no dosage is ever rejected. */
  function DosageAppropriate(info: DrugInfo, dosage: string, age: int): (ok: bool)
    ensures ok
  {
    true
  }

  lemma {:induction false} NotContainedWithoutFirstChar(s: string, t: string)
    requires |t| > 0 && forall i :: 0 <= i < |s| ==> s[i] != t[0]
    ensures !Contains(s, t)
  {
    if |t| <= |s| {
      assert s[..|t|][0] == s[0];
      NotContainedWithoutFirstChar(s[1..], t);
    }
  }

  /** A record whose pediatric text is the ten-year phrase gates exactly the
      patients under 10. */
  lemma TenYearGate(info: DrugInfo, age: int)
    requires info.pediatricDosage == Under10
    ensures !AgeAppropriate(info, age) <==> age < 10
  {
    var p := info.pediatricDosage;
    assert p[..|Under10|] == Under10;
    assert p[..|Under16|] != Under16 by { assert p[23] != Under16[23]; }
    NotContainedWithoutFirstChar(p[1..], Under16);
  }

  /** A record whose pediatric text starts with the sixteen-year phrase gates
      exactly the patients under 16. */
  lemma SixteenYearGate(info: DrugInfo, age: int)
    requires |info.pediatricDosage| >= |Under16| && info.pediatricDosage[..|Under16|] == Under16
    ensures !AgeAppropriate(info, age) <==> age < 16
  {}

  /** A record whose pediatric text has no capital N gates nobody. */
  lemma NoGate(info: DrugInfo, age: int)
    requires forall i :: 0 <= i < |info.pediatricDosage| ==> info.pediatricDosage[i] != 'N'
    ensures AgeAppropriate(info, age)
  {
    NotContainedWithoutFirstChar(info.pediatricDosage, Under16);
    NotContainedWithoutFirstChar(info.pediatricDosage, Under10);
  }

  /** In the verifier's drug table, age gates exactly aspirin below 16 and
      metformin and atorvastatin below 10; every other record is appropriate
      at every age. */
  lemma DrugTableAgeGates(name: string, age: int)
    requires name in Drugs
    ensures !AgeAppropriate(Drugs[name], age) <==>
      (name == "aspirin" && age < 16) ||
      ((name == "metformin" || name == "atorvastatin") && age < 10)
  {
    var info := Drugs[name];
    if name == "aspirin" {
      assert info.pediatricDosage[..|Under16|] == Under16;
      SixteenYearGate(info, age);
    } else if name == "metformin" || name == "atorvastatin" {
      TenYearGate(info, age);
    } else if name == "amoxicillin" {
      NoGate(info, age);
    } else {
      assert |info.pediatricDosage| < |Under10| == |Under16|;
    }
  }
}
