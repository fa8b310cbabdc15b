/**
 * The score table and the selection step of the page: every attraction row
 * is set to "not adopted", "queue" (並ぶ) or "DPA"; the chosen column's score
 * is added to the raw total and the choice is listed; the raw total is then
 * multiplied by the crowd, companion and perk factors.
 */
module Selection {
  import opened Modifiers

  /** One row of the score table: the attraction and its score when queueing and when using DPA. */
  datatype Attraction = Attraction(name: string, queue: int, dpa: int)

  /** One row of the "selected" table: attraction, chosen column and its score. */
  datatype Pick = Pick(name: string, mode: string, score: int)

  const Queue: string := "並ぶ"
  const Dpa: string := "DPA"

  /** The sample score table (ATTRACTIONS). */
  const Attractions: seq<Attraction> := [
    Attraction("アナ雪", 5, 5),
    Attraction("ソアリン", 5, 4),
    Attraction("センター・オブ・ジ・アース", 4, 3),
    Attraction("トイマニ", 4, 3),
    Attraction("タワー・オブ・テラー", 3, 2),
    Attraction("インディ", 3, 2)
  ]

  /** zip stops at the shorter of its two inputs. */
  function Paired(rows: seq<Attraction>, choices: seq<string>): (n: nat)
    ensures n <= |rows| && n <= |choices|
    ensures n == |rows| || n == |choices|
  {
    if |rows| <= |choices| then |rows| else |choices|
  }

  predicate IsSelected(choice: string) {
    choice == Queue || choice == Dpa
  }

  /** The score a row adds for one choice: its queue score, its DPA score, or nothing. */
  function Contribution(row: Attraction, choice: string): (s: int)
    ensures choice == Queue ==> s == row.queue
    ensures choice == Dpa ==> s == row.dpa
    ensures !IsSelected(choice) ==> s == 0
  {
    if choice == Queue then row.queue
    else if choice == Dpa then row.dpa
    else 0
  }

  /** The entry a row adds to the "selected" table for one choice: none or exactly one. */
  function PickOf(row: Attraction, choice: string): (p: seq<Pick>)
    ensures |p| == if IsSelected(choice) then 1 else 0
    ensures |p| == 1 ==> p[0] == Pick(row.name, choice, Contribution(row, choice))
  {
    if choice == Queue then [Pick(row.name, Queue, row.queue)]
    else if choice == Dpa then [Pick(row.name, Dpa, row.dpa)]
    else []
  }

  /** Both scores of each of the first n rows are non-negative, as on the shipped table. */
  predicate ScoresNonNegative(rows: seq<Attraction>, n: nat)
    requires n <= |rows|
  {
    forall k :: 0 <= k < n ==> rows[k].queue >= 0 && rows[k].dpa >= 0
  }

  /** The raw total after the first n rows: the sum of the chosen columns. */
  function SumChosen(rows: seq<Attraction>, choices: seq<string>, n: nat): (sum: int)
    requires n <= |rows| && n <= |choices|
    ensures ScoresNonNegative(rows, n) ==> sum >= 0
  {
    if n == 0 then 0
    else SumChosen(rows, choices, n - 1) + Contribution(rows[n - 1], choices[n - 1])
  }

  /** The "selected" table after the first n rows. */
  function PickedRows(rows: seq<Attraction>, choices: seq<string>, n: nat): (picked: seq<Pick>)
    requires n <= |rows| && n <= |choices|
    ensures forall k :: 0 <= k < |picked| ==> IsSelected(picked[k].mode)
  {
    if n == 0 then []
    else PickedRows(rows, choices, n - 1) + PickOf(rows[n - 1], choices[n - 1])
  }

  /** How many of the first n choices select a column. */
  function CountSelected(choices: seq<string>, n: nat): nat
    requires n <= |choices|
  {
    if n == 0 then 0
    else CountSelected(choices, n - 1) + (if IsSelected(choices[n - 1]) then 1 else 0)
  }

  /** The raw total if every row took its larger column. */
  function SumLarger(rows: seq<Attraction>, n: nat): int
    requires n <= |rows|
  {
    if n == 0 then 0
    else SumLarger(rows, n - 1) + (if rows[n - 1].queue >= rows[n - 1].dpa then rows[n - 1].queue else rows[n - 1].dpa)
  }

  function SumScores(picked: seq<Pick>): int {
    if |picked| == 0 then 0
    else SumScores(picked[..|picked| - 1]) + picked[|picked| - 1].score
  }

  /** The corrected total: the raw total times the crowd, companion and perk factors. */
  function CorrectedTotal(baseTotal: int, crowd: string, group: string, happyEntry: bool, vacap: bool): real
  {
    Scale(baseTotal, CombinedFactor(crowd, group, happyEntry, vacap))
  }

  function Scale(baseTotal: int, factor: real): real {
    baseTotal as real * factor
  }

  /**
   * The corrected total is 0 when the raw total is 0 and, for a non-negative
   * raw total, lies between 0.6885 and 1.475 times it (the smallest and the
   * largest product of the three factors).
   */
  lemma CorrectedTotalBounds(baseTotal: int, crowd: string, group: string, happyEntry: bool, vacap: bool)
    ensures baseTotal == 0 ==> CorrectedTotal(baseTotal, crowd, group, happyEntry, vacap) == 0.0
    ensures baseTotal >= 0 ==>
      0.6885 * baseTotal as real <= CorrectedTotal(baseTotal, crowd, group, happyEntry, vacap) <= 1.475 * baseTotal as real
  {
    ScaleBounds(baseTotal, CombinedFactor(crowd, group, happyEntry, vacap));
  }

  /** The product of the three factors lies between 0.90 * 0.90 * 0.85 and 1.25 * 1.18. */
  function CombinedFactor(crowd: string, group: string, happyEntry: bool, vacap: bool): (f: real)
    ensures 0.6885 <= f <= 1.475
  {
    var cm, gm, pm := CrowdModifier(crowd), ChildModifier(group), PerkFactor(happyEntry, vacap);
    ProductBounds(cm, gm, 0.90, 1.25, 1.00, 1.18);
    ProductBounds(cm * gm, pm, 0.90, 1.475, 0.90 * 0.85, 1.00);
    cm * gm * pm
  }

  /** The corrected total, multiplied out factor by factor from the left. */
  lemma CorrectedTotalUnfolds(baseTotal: int, crowd: string, group: string, happyEntry: bool, vacap: bool,
                              crowdFactor: real, groupFactor: real, perkFactor: real, total: real)
    requires crowdFactor == CrowdModifier(crowd) && groupFactor == ChildModifier(group)
    requires perkFactor == PerkFactor(happyEntry, vacap)
    requires total == baseTotal as real * crowdFactor * groupFactor * perkFactor
    ensures total == CorrectedTotal(baseTotal, crowd, group, happyEntry, vacap)
  {
    CombinedFactorIsProduct(crowd, group, happyEntry, vacap);
    Reassociate(baseTotal as real, crowdFactor, groupFactor, perkFactor);
  }

  lemma CombinedFactorIsProduct(crowd: string, group: string, happyEntry: bool, vacap: bool)
    ensures CombinedFactor(crowd, group, happyEntry, vacap) == CrowdModifier(crowd) * ChildModifier(group) * PerkFactor(happyEntry, vacap)
  {
  }

  lemma Reassociate(b: real, x: real, y: real, z: real)
    ensures b * x * y * z == b * (x * y * z)
  {
  }

  lemma ProductBounds(x: real, y: real, xLo: real, xHi: real, yLo: real, yHi: real)
    requires 0.0 <= xLo <= x <= xHi && 0.0 <= yLo <= y <= yHi
    ensures xLo * yLo <= x * y <= xHi * yHi
  {
    assert xLo * yLo <= x * yLo;
    assert x * yLo <= x * y;
    assert x * y <= xHi * y;
    assert xHi * y <= xHi * yHi;
  }

  lemma ScaleBounds(baseTotal: int, factor: real)
    requires 0.6885 <= factor <= 1.475
    ensures baseTotal == 0 ==> Scale(baseTotal, factor) == 0.0
    ensures baseTotal >= 0 ==> 0.6885 * baseTotal as real <= Scale(baseTotal, factor) <= 1.475 * baseTotal as real
  {
    var b := baseTotal as real;
    assert Scale(baseTotal, factor) == b * factor;
    if b >= 0.0 {
      assert b * factor - 0.6885 * b == b * (factor - 0.6885);
      assert 1.475 * b - b * factor == b * (1.475 - factor);
      MulNonNeg(b, factor - 0.6885);
      MulNonNeg(b, 1.475 - factor);
    }
  }

  lemma MulNonNeg(x: real, y: real)
    requires x >= 0.0 && y >= 0.0
    ensures x * y >= 0.0
  {
  }

  /**
   * The selection step of the page: walks the score table and the choices
   * side by side, adds each chosen column's score and lists it, then
   * applies the crowd, companion and perk factors.
   */
  method TallySelection(rows: seq<Attraction>, choices: seq<string>, crowd: string, group: string, happyEntry: bool, vacap: bool)
    returns (baseTotal: int, picked: seq<Pick>, total: real)
    ensures baseTotal == SumChosen(rows, choices, Paired(rows, choices))
    ensures picked == PickedRows(rows, choices, Paired(rows, choices))
    ensures total == CorrectedTotal(baseTotal, crowd, group, happyEntry, vacap)
  {
    var n := Paired(rows, choices);
    baseTotal := 0;
    picked := [];
    var i := 0;
    while i < n
      invariant 0 <= i <= n
      invariant baseTotal == SumChosen(rows, choices, i)
      invariant picked == PickedRows(rows, choices, i)
    {
      var row, choice := rows[i], choices[i];
      if choice == Queue {
        baseTotal := baseTotal + row.queue;
        picked := picked + [Pick(row.name, Queue, row.queue)];
      } else if choice == Dpa {
        baseTotal := baseTotal + row.dpa;
        picked := picked + [Pick(row.name, Dpa, row.dpa)];
      }
      i := i + 1;
    }

    total := ApplyCorrections(baseTotal, crowd, group, happyEntry, vacap);
  }

  /** Rebuilds the total from the raw total by multiplying in one factor at a time. */
  method ApplyCorrections(baseTotal: int, crowd: string, group: string, happyEntry: bool, vacap: bool) returns (total: real)
    ensures total == CorrectedTotal(baseTotal, crowd, group, happyEntry, vacap)
  {
    var crowdFactor, groupFactor := CrowdModifier(crowd), ChildModifier(group);
    var perkFactor := PerkModifier(happyEntry, vacap);
    total := baseTotal as real;
    total := total * crowdFactor;
    total := total * groupFactor;
    total := total * perkFactor;
    CorrectedTotalUnfolds(baseTotal, crowd, group, happyEntry, vacap, crowdFactor, groupFactor, perkFactor, total);
  }

  /** The raw total is exactly the sum of the scores shown in the "selected" table. */
  lemma {:induction false} PickedScoresSum(rows: seq<Attraction>, choices: seq<string>, n: nat)
    requires n <= |rows| && n <= |choices|
    ensures SumScores(PickedRows(rows, choices, n)) == SumChosen(rows, choices, n)
  {
    if n > 0 {
      PickedScoresSum(rows, choices, n - 1);
      var before := PickedRows(rows, choices, n - 1);
      var added := PickOf(rows[n - 1], choices[n - 1]);
      SumScoresAppend(before, added);
    }
  }

  /** Appending at most one entry adds its score to the sum. */
  lemma SumScoresAppend(before: seq<Pick>, added: seq<Pick>)
    requires |added| <= 1
    ensures SumScores(before + added) == SumScores(before) + (if |added| == 1 then added[0].score else 0)
  {
    if |added| == 1 {
      assert (before + added)[..|before|] == before;
    } else {
      assert before + added == before;
    }
  }

  /** The "selected" table has one row per choice of "並ぶ" or "DPA". */
  lemma {:induction false} PickedCount(rows: seq<Attraction>, choices: seq<string>, n: nat)
    requires n <= |rows| && n <= |choices|
    ensures |PickedRows(rows, choices, n)| == CountSelected(choices, n)
  {
    if n > 0 {
      PickedCount(rows, choices, n - 1);
    }
  }

  /**
   * Later rows only append: the table after m rows is a prefix of the table
   * after n rows, so the entries follow the order of the score table.
   */
  lemma {:induction false} PickedInTableOrder(rows: seq<Attraction>, choices: seq<string>, m: nat, n: nat)
    requires m <= n <= |rows| && n <= |choices|
    ensures PickedRows(rows, choices, m) <= PickedRows(rows, choices, n)
    decreases n - m
  {
    if m < n {
      PickedInTableOrder(rows, choices, m, n - 1);
    }
  }

  /**
   * Each row contributes at most one of its two scores: with non-negative
   * scores the raw total lies between 0 and the sum of the larger column of
   * each row, never reaching queue + DPA of a row.
   */
  lemma {:induction false} SumChosenBounds(rows: seq<Attraction>, choices: seq<string>, n: nat)
    requires n <= |rows| && n <= |choices|
    requires ScoresNonNegative(rows, n)
    ensures 0 <= SumChosen(rows, choices, n) <= SumLarger(rows, n)
  {
    if n > 0 {
      SumChosenBounds(rows, choices, n - 1);
    }
  }

  /** Choosing nothing gives a raw total of 0 and an empty "selected" table. */
  lemma {:induction false} NothingSelected(rows: seq<Attraction>, choices: seq<string>, n: nat)
    requires n <= |rows| && n <= |choices|
    requires forall k :: 0 <= k < n ==> !IsSelected(choices[k])
    ensures SumChosen(rows, choices, n) == 0
    ensures PickedRows(rows, choices, n) == []
  {
    if n > 0 {
      NothingSelected(rows, choices, n - 1);
    }
  }

  /** On the sample table the raw total is between 0 and 24 whatever is chosen. */
  lemma SampleTableRawTotal(choices: seq<string>)
    ensures 0 <= SumChosen(Attractions, choices, Paired(Attractions, choices)) <= 24
  {
    var n := Paired(Attractions, choices);
    SumChosenBounds(Attractions, choices, n);
    SumLargerGrows(Attractions, n, |Attractions|);
    assert SumLarger(Attractions, 6) == 24 by {
      assert SumLarger(Attractions, 1) == 5;
      assert SumLarger(Attractions, 2) == 10;
      assert SumLarger(Attractions, 3) == 14;
      assert SumLarger(Attractions, 4) == 18;
      assert SumLarger(Attractions, 5) == 21;
    }
  }

  lemma {:induction false} SumLargerGrows(rows: seq<Attraction>, m: nat, n: nat)
    requires m <= n <= |rows|
    requires forall k :: 0 <= k < |rows| ==> rows[k].queue >= 0
    ensures SumLarger(rows, m) <= SumLarger(rows, n)
    decreases n - m
  {
    if m < n {
      SumLargerGrows(rows, m, n - 1);
    }
  }

  /** More raw points never lower the corrected total (all factors are positive). */
  lemma CorrectedTotalMonotone(base1: int, base2: int, crowd: string, group: string, happyEntry: bool, vacap: bool)
    requires base1 <= base2
    ensures CorrectedTotal(base1, crowd, group, happyEntry, vacap) <= CorrectedTotal(base2, crowd, group, happyEntry, vacap)
  {
    var f := CombinedFactor(crowd, group, happyEntry, vacap);
    ScaleMonotone(base1, base2, f);
  }

  /** Raising the first of three non-negative factors never lowers their product. */
  lemma ProductGrowsInFirst(x1: real, x2: real, y: real, z: real)
    requires x1 <= x2 && y >= 0.0 && z >= 0.0
    ensures x1 * y * z <= x2 * y * z
  {
    assert x2 * y - x1 * y == (x2 - x1) * y;
    MulNonNeg(x2 - x1, y);
    assert x2 * y * z - x1 * y * z == (x2 * y - x1 * y) * z;
    MulNonNeg(x2 * y - x1 * y, z);
  }

  /** For a non-negative raw total, a larger factor never lowers the scaled total. */
  lemma ScaleGrowsWithFactor(baseTotal: int, factor1: real, factor2: real)
    requires baseTotal >= 0 && factor1 <= factor2
    ensures Scale(baseTotal, factor1) <= Scale(baseTotal, factor2)
  {
    var b := baseTotal as real;
    assert b * factor2 - b * factor1 == b * (factor2 - factor1);
    MulNonNeg(b, factor2 - factor1);
  }

  lemma ScaleMonotone(base1: int, base2: int, factor: real)
    requires base1 <= base2 && factor > 0.0
    ensures Scale(base1, factor) <= Scale(base2, factor)
  {
    assert Scale(base2, factor) - Scale(base1, factor) == (base2 - base1) as real * factor;
  }
}
