/** What `_check_interactions` reports: every index pair i < j of the
    prescription, visited row by row, probed in the interaction table. */
module InteractionChecker {
  import opened PyStr
  import opened KnowledgeBase
  import opened MedicationEvaluator

  /** One reported interaction; `drug1` is the earlier medication. */
  datatype Interaction = Interaction(drug1: string, drug2: string, severity: string, description: string)

  /** Pairs (i, i+1), ..., (i, j-1): row i of the enumeration, up to column j. */
  function RowPairs(i: nat, j: nat): seq<(nat, nat)>
    decreases j
  {
    if j <= i + 1 then [] else RowPairs(i, j - 1) + [(i, j - 1)]
  }

  /** Rows 0 .. i-1 of the enumeration of pairs below n. */
  function PairsBelow(n: nat, i: nat): seq<(nat, nat)> {
    if i == 0 then [] else PairsBelow(n, i - 1) + RowPairs(i - 1, n)
  }

  /** Every index pair of a list of n elements, in the order the nested
      loops visit them. */
  function Pairs(n: nat): seq<(nat, nat)> { PairsBelow(n, n) }

  /** Strict row-major order on index pairs. */
  predicate PairBefore(p: (nat, nat), q: (nat, nat)) {
    p.0 < q.0 || (p.0 == q.0 && p.1 < q.1)
  }

  /** The interaction, if any, reported for medications i and j. */
  function HitAt(table: InteractionTable, meds: seq<Medication>, i: nat, j: nat): (r: seq<Interaction>)
    requires i < |meds| && j < |meds|
    ensures |r| <= 1
  {
    match LookupInteraction(table, Key(meds[i].name), Key(meds[j].name))
    case None => []
    case Some(info) =>
      [Interaction(Title(meds[i].name), Title(meds[j].name), info.severity, info.description)]
  }

  /** What probing one index pair reports. */
  type Probe = (nat, nat) -> seq<Interaction>

  /** The probe of `_check_interactions` (a pair outside the list, which the
      loops never visit, reports nothing). */
  function Probing(table: InteractionTable, meds: seq<Medication>): Probe {
    (i: nat, j: nat) => if i < |meds| && j < |meds| then HitAt(table, meds, i, j) else []
  }

  /* The collection below is stated for an arbitrary probe of index pairs:
     what it reports does not depend on how a pair is probed, and this keeps
     the proofs about it apart from the string functions. */

  /** The reports of row i of the nested loops, for columns i+1 .. j-1. */
  function RowReports(hit: Probe, i: nat, j: nat): seq<Interaction>
    decreases j
  {
    if j <= i + 1 then [] else RowReports(hit, i, j - 1) + hit(i, j - 1)
  }

  /** The reports of rows 0 .. i-1 of a list of n elements. */
  function ReportsBelow(hit: Probe, n: nat, i: nat): seq<Interaction> {
    if i == 0 then [] else ReportsBelow(hit, n, i - 1) + RowReports(hit, i - 1, n)
  }

  /** Probing one more column of row i appends what the probe reports for
      it. */
  lemma RowReportsGrow(hit: Probe, i: nat, j: nat, front: seq<Interaction>, before: seq<Interaction>,
                       after: seq<Interaction>)
    requires i < j && before == front + RowReports(hit, i, j) && after == before + hit(i, j)
    ensures after == front + RowReports(hit, i, j + 1)
  {
    assert RowReports(hit, i, j + 1) == RowReports(hit, i, j) + hit(i, j);
  }

  /** On row i, `probe` reports what `HitAt` does. */
  predicate ProbesRow(probe: Probe, table: InteractionTable, meds: seq<Medication>, i: nat) {
    forall j {:trigger HitAt(table, meds, i, j)} :: i < j < |meds| ==> probe(i, j) == HitAt(table, meds, i, j)
  }

  /** The probe of `_check_interactions` reports what `HitAt` does on every
      row. */
  lemma ProbingProbesRow(table: InteractionTable, meds: seq<Medication>, i: nat)
    ensures ProbesRow(Probing(table, meds), table, meds, i)
  {}

  /** Everything `_check_interactions` reports for `meds`. */
  function CheckedInteractions(table: InteractionTable, meds: seq<Medication>): seq<Interaction> {
    ReportsBelow(Probing(table, meds), |meds|, |meds|)
  }

  lemma {:induction false} RowPairsMembership(i: nat, j: nat)
    ensures forall p :: p in RowPairs(i, j) <==> p.0 == i && i < p.1 < j
    ensures |RowPairs(i, j)| == if j <= i then 0 else j - i - 1
    decreases j
  {
    if j > i + 1 {
      RowPairsMembership(i, j - 1);
    }
  }

  /** Rows below i hold exactly the pairs whose first index is below i. */
  lemma {:induction false} PairsMembership(n: nat, i: nat)
    requires i <= n
    ensures forall p :: p in PairsBelow(n, i) <==> p.0 < i && p.0 < p.1 < n
  {
    if i > 0 {
      PairsMembership(n, i - 1);
      RowPairsMembership(i - 1, n);
      forall p ensures p in PairsBelow(n, i) <==> p.0 < i && p.0 < p.1 < n {
        assert p in PairsBelow(n, i) <==> p in PairsBelow(n, i - 1) || p in RowPairs(i - 1, n);
      }
    }
  }

  /** Row-major order holds within each row. */
  lemma {:induction false} RowPairsSorted(i: nat, j: nat)
    ensures RowMajor(RowPairs(i, j))
    decreases j
  {
    if j > i + 1 {
      RowPairsSorted(i, j - 1);
      RowPairsMembership(i, j - 1);
      var r := RowPairs(i, j);
      assert r == RowPairs(i, j - 1) + [(i, j - 1)];
      forall a, b | 0 <= a < b < |r| ensures PairBefore(r[a], r[b]) {
        if b == |r| - 1 {
          assert r[a] in RowPairs(i, j - 1);
        }
      }
    }
  }

  /** Strictly increasing in row-major order. */
  predicate RowMajor(ps: seq<(nat, nat)>) {
    forall a, b :: 0 <= a < b < |ps| ==> PairBefore(ps[a], ps[b])
  }

  /** Two runs in row-major order, the first wholly before the second, join
      into one. */
  lemma RowMajorJoin(front: seq<(nat, nat)>, row: seq<(nat, nat)>)
    requires RowMajor(front) && RowMajor(row)
    requires forall p, q :: p in front && q in row ==> PairBefore(p, q)
    ensures RowMajor(front + row)
  {
    var all := front + row;
    forall a, b | 0 <= a < b < |all| ensures PairBefore(all[a], all[b]) {
      if b < |front| {
        assert all[a] == front[a] && all[b] == front[b];
      } else if a < |front| {
        assert all[a] == front[a] && front[a] in front;
        assert all[b] == row[b - |front|] && row[b - |front|] in row;
      } else {
        assert all[a] == row[a - |front|] && all[b] == row[b - |front|];
      }
    }
  }

  lemma {:induction false} PairsBelowSorted(n: nat, i: nat)
    requires i <= n
    ensures RowMajor(PairsBelow(n, i))
  {
    if i > 0 {
      var front, row := PairsBelow(n, i - 1), RowPairs(i - 1, n);
      PairsBelowSorted(n, i - 1);
      RowPairsSorted(i - 1, n);
      forall p, q | p in front && q in row ensures PairBefore(p, q) {
        PairsMembership(n, i - 1);
        RowPairsMembership(i - 1, n);
      }
      RowMajorJoin(front, row);
    }
  }

  lemma {:induction false} PairsBelowLength(n: nat, i: nat)
    requires i <= n
    ensures 2 * |PairsBelow(n, i)| == i * (2 * n - i - 1)
  {
    if i > 0 {
      PairsBelowLength(n, i - 1);
      RowPairsMembership(i - 1, n);
      assert |PairsBelow(n, i)| == |PairsBelow(n, i - 1)| + (n - i);
      RowCountStep(n, i, |PairsBelow(n, i - 1)|);
    }
  }

  /** The arithmetic of one more row: (i-1)(2n-i) + 2(n-i) == i(2n-i-1). */
  lemma RowCountStep(n: int, i: int, before: int)
    requires 2 * before == (i - 1) * (2 * n - (i - 1) - 1)
    ensures 2 * (before + (n - i)) == i * (2 * n - i - 1)
  {
    var m := 2 * n - i;
    assert (i - 1) * m == i * m - m;
    assert i * (m - 1) == i * m - i;
  }

  /** The nested loops visit every pair i < j < n exactly once, in row-major
      order: n(n-1)/2 pairs in strictly increasing order, so without
      repetition. */
  lemma PairsEnumeration(n: nat)
    ensures forall p :: p in Pairs(n) <==> p.0 < p.1 < n
    ensures forall a, b :: 0 <= a < b < |Pairs(n)| ==> PairBefore(Pairs(n)[a], Pairs(n)[b])
    ensures |Pairs(n)| == n * (n - 1) / 2
  {
    PairsMembership(n, n);
    PairsBelowSorted(n, n);
    PairsBelowLength(n, n);
    assert 2 * |Pairs(n)| == n * (n - 1);
  }

  /** The probe's reports over a list of pairs, concatenated in list order. */
  function Collect(hit: Probe, ps: seq<(nat, nat)>): seq<Interaction> {
    if ps == [] then [] else Collect(hit, ps[..|ps| - 1]) + hit(ps[|ps| - 1].0, ps[|ps| - 1].1)
  }

  lemma {:induction false} CollectAppend(hit: Probe, ps: seq<(nat, nat)>, qs: seq<(nat, nat)>)
    ensures Collect(hit, ps + qs) == Collect(hit, ps) + Collect(hit, qs)
    decreases |qs|
  {
    if qs == [] {
      assert ps + qs == ps;
    } else {
      var init, last := qs[..|qs| - 1], qs[|qs| - 1];
      assert (ps + qs)[..|ps + qs| - 1] == ps + init;
      CollectAppend(hit, ps, init);
    }
  }

  /** Row i reports, in order, what the probe reports for each pair of the
      row. */
  lemma {:induction false} RowReportsCollect(hit: Probe, i: nat, j: nat)
    ensures RowReports(hit, i, j) == Collect(hit, RowPairs(i, j))
    decreases j
  {
    if j > i + 1 {
      RowReportsCollect(hit, i, j - 1);
      var ps := RowPairs(i, j);
      assert ps[..|ps| - 1] == RowPairs(i, j - 1) && ps[|ps| - 1] == (i, j - 1);
    }
  }

  lemma {:induction false} ReportsBelowCollect(hit: Probe, n: nat, i: nat)
    ensures ReportsBelow(hit, n, i) == Collect(hit, PairsBelow(n, i))
  {
    if i > 0 {
      var front, row := PairsBelow(n, i - 1), RowPairs(i - 1, n);
      var before, last := ReportsBelow(hit, n, i - 1), RowReports(hit, i - 1, n);
      assert before == Collect(hit, front) by { ReportsBelowCollect(hit, n, i - 1); }
      assert last == Collect(hit, row) by { RowReportsCollect(hit, i - 1, n); }
      assert Collect(hit, front + row) == Collect(hit, front) + Collect(hit, row) by {
        CollectAppend(hit, front, row);
      }
    }
  }

  /** The reports are the probes of the enumerated pairs, one after another,
      in the enumeration's order: nothing is merged or dropped, so identical
      reports from different pairs all stay. */
  lemma CheckedInteractionsEnumerate(table: InteractionTable, meds: seq<Medication>)
    ensures CheckedInteractions(table, meds) == Collect(Probing(table, meds), Pairs(|meds|))
  {
    ReportsBelowCollect(Probing(table, meds), |meds|, |meds|);
  }

  /** A row reports at most one interaction per column it visits. */
  lemma {:induction false} RowReportsLength(hit: Probe, i: nat, j: nat)
    requires forall a, b :: |hit(a, b)| <= 1
    ensures |RowReports(hit, i, j)| <= |RowPairs(i, j)|
    decreases j
  {
    if j > i + 1 {
      RowReportsLength(hit, i, j - 1);
      RowPairsMembership(i, j);
      RowPairsMembership(i, j - 1);
    }
  }

  lemma {:induction false} ReportsBelowLength(hit: Probe, n: nat, i: nat)
    requires forall a, b :: |hit(a, b)| <= 1
    ensures |ReportsBelow(hit, n, i)| <= |PairsBelow(n, i)|
  {
    if i > 0 {
      ReportsBelowLength(hit, n, i - 1);
      RowReportsLength(hit, i - 1, n);
    }
  }

  /** A row reports exactly what the probe reports for one of its columns. */
  lemma {:induction false} RowReportsMembership(hit: Probe, i: nat, j: nat, x: Interaction)
    ensures x in RowReports(hit, i, j) <==> exists k: nat :: i < k < j && x in hit(i, k)
    decreases j
  {
    if j > i + 1 {
      RowReportsMembership(hit, i, j - 1, x);
      assert RowReports(hit, i, j) == RowReports(hit, i, j - 1) + hit(i, j - 1);
    }
  }

  /** Rows 0 .. i-1 report exactly what the probe reports for their pairs. */
  lemma {:induction false} ReportsBelowMembership(hit: Probe, n: nat, i: nat, x: Interaction)
    ensures x in ReportsBelow(hit, n, i) <==> exists a: nat, b: nat :: a < i && a < b < n && x in hit(a, b)
  {
    if i > 0 {
      ReportsBelowMembership(hit, n, i - 1, x);
      RowReportsMembership(hit, i - 1, n, x);
      var before, row := ReportsBelow(hit, n, i - 1), RowReports(hit, i - 1, n);
      assert ReportsBelow(hit, n, i) == before + row;
      if x in row {
        var b: nat :| i - 1 < b < n && x in hit(i - 1, b);
        assert i - 1 < i && i - 1 < b < n && x in hit(i - 1, b);
      }
      if exists a: nat, b: nat :: a < i && a < b < n && x in hit(a, b) {
        var a: nat, b: nat :| a < i && a < b < n && x in hit(a, b);
        if a < i - 1 {
          assert x in before;
        } else {
          assert x in row;
        }
      }
    }
  }

  /** Interaction `x` is what the table holds for medications i and j, with
      both names title-cased from the names as given. */
  predicate ReportedFor(table: InteractionTable, meds: seq<Medication>, i: nat, j: nat, x: Interaction)
    requires i < |meds| && j < |meds|
  {
    LookupInteraction(table, Key(meds[i].name), Key(meds[j].name)) ==
      Some(InteractionInfo(x.severity, x.description)) &&
    x.drug1 == Title(meds[i].name) && x.drug2 == Title(meds[j].name)
  }

  lemma HitAtMeaning(table: InteractionTable, meds: seq<Medication>, i: nat, j: nat, x: Interaction)
    requires i < |meds| && j < |meds|
    ensures x in HitAt(table, meds, i, j) <==> ReportedFor(table, meds, i, j, x)
  {}

  lemma ReportedOnlyForPairs(table: InteractionTable, meds: seq<Medication>, x: Interaction)
    requires x in CheckedInteractions(table, meds)
    ensures exists i: nat, j: nat :: i < j < |meds| && ReportedFor(table, meds, i, j, x)
  {
    ReportsBelowMembership(Probing(table, meds), |meds|, |meds|, x);
    var a: nat, b: nat :| a < |meds| && a < b < |meds| && x in Probing(table, meds)(a, b);
    HitAtMeaning(table, meds, a, b, x);
  }

  lemma ReportedForEveryPair(table: InteractionTable, meds: seq<Medication>, i: nat, j: nat, x: Interaction)
    requires i < j < |meds| && ReportedFor(table, meds, i, j, x)
    ensures x in CheckedInteractions(table, meds)
  {
    HitAtMeaning(table, meds, i, j, x);
    assert x in Probing(table, meds)(i, j);
    ReportsBelowMembership(Probing(table, meds), |meds|, |meds|, x);
  }

  /** A reported interaction is exactly the table entry found for some pair
      i < j, the earlier medication first. */
  lemma CheckedInteractionsMeaning(table: InteractionTable, meds: seq<Medication>, x: Interaction)
    ensures x in CheckedInteractions(table, meds) <==>
      exists i: nat, j: nat :: i < j < |meds| && ReportedFor(table, meds, i, j, x)
  {
    if x in CheckedInteractions(table, meds) {
      ReportedOnlyForPairs(table, meds, x);
    }
    if exists i: nat, j: nat :: i < j < |meds| && ReportedFor(table, meds, i, j, x) {
      var i: nat, j: nat :| i < j < |meds| && ReportedFor(table, meds, i, j, x);
      ReportedForEveryPair(table, meds, i, j, x);
    }
  }

  /** One medication has no pair to probe; two have exactly one. */
  lemma CheckedOfFewMedications(table: InteractionTable, meds: seq<Medication>)
    ensures |meds| <= 1 ==> CheckedInteractions(table, meds) == []
    ensures |meds| == 2 ==> CheckedInteractions(table, meds) == HitAt(table, meds, 0, 1)
  {
    var probe := Probing(table, meds);
    if |meds| == 2 {
      assert RowReports(probe, 0, 2) == probe(0, 1) == HitAt(table, meds, 0, 1);
      assert ReportsBelow(probe, 2, 2) == ReportsBelow(probe, 2, 1) + RowReports(probe, 1, 2);
    } else if |meds| == 1 {
      assert ReportsBelow(probe, 1, 1) == RowReports(probe, 0, 1);
    }
  }

  /** At most one interaction per pair: n(n-1)/2 in all. */
  lemma CheckedInteractionsBound(table: InteractionTable, meds: seq<Medication>)
    ensures |CheckedInteractions(table, meds)| <= |meds| * (|meds| - 1) / 2
  {
    ReportsBelowLength(Probing(table, meds), |meds|, |meds|);
    PairsEnumeration(|meds|);
  }
}
