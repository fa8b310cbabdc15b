/**
 * What follows from feeding the corrected total of the selection step into
 * evaluate under the same conditions.
 */
module Pipeline {
  import opened Wrappers
  import opened Conditions
  import opened Modifiers
  import opened Evaluation
  import opened Selection

  /** The verdict the page shows for a raw total under the chosen conditions. */
  function PageVerdict(baseTotal: int, c: Crowd, group: string, w: WaitTolerance, happyEntry: bool, vacap: bool): Verdict {
    Classify(CorrectedTotal(baseTotal, c.Label(), group, happyEntry, vacap), MakeThresholds(w, c))
  }

  /** With the conditions fixed, adding raw points never yields a milder verdict. */
  lemma MorePointsNeverMilder(base1: int, base2: int, c: Crowd, group: string, w: WaitTolerance, happyEntry: bool, vacap: bool)
    requires base1 <= base2
    ensures PageVerdict(base1, c, group, w, happyEntry, vacap).Severity() <= PageVerdict(base2, c, group, w, happyEntry, vacap).Severity()
  {
    CorrectedTotalMonotone(base1, base2, c.Label(), group, happyEntry, vacap);
    SeverityMonotone(CorrectedTotal(base1, c.Label(), group, happyEntry, vacap),
                     CorrectedTotal(base2, c.Label(), group, happyEntry, vacap), MakeThresholds(w, c));
  }

  /** Selecting nothing is always judged the easiest verdict. */
  lemma EmptySelectionIsEasiest(c: Crowd, group: string, w: WaitTolerance, happyEntry: bool, vacap: bool)
    ensures PageVerdict(0, c, group, w, happyEntry, vacap) == VeryEasy
  {
  }

  /**
   * The crowd factor and the crowd bump pull in opposite directions. Queueing
   * for all six rides of the shipped table gives a raw total of 24; with
   * upper-grade children, a 30-minute tolerance and no perks, a usual day
   * (25.44 against a first threshold of 25.2) is judged "standard", but a
   * sold-out-level day (31.8 against a raised first threshold of 35.2) is
   * judged "very easy".
   */
  lemma BusierDayCanBeJudgedMilder()
    ensures SumChosen(Attractions, [Queue, Queue, Queue, Queue, Queue, Queue], 6) == 24
    ensures PageVerdict(24, Usual, UpperGrades.Label(), Upto30, false, false) == Standard
    ensures PageVerdict(24, Packed, UpperGrades.Label(), Upto30, false, false) == VeryEasy
  {
    var queueAll := [Queue, Queue, Queue, Queue, Queue, Queue];
    assert SumChosen(Attractions, queueAll, 6) == 24 by {
      assert SumChosen(Attractions, queueAll, 1) == 5;
      assert SumChosen(Attractions, queueAll, 2) == 10;
      assert SumChosen(Attractions, queueAll, 3) == 14;
      assert SumChosen(Attractions, queueAll, 4) == 18;
      assert SumChosen(Attractions, queueAll, 5) == 21;
    }
    assert ParseCrowd(Packed.Label()) == Some(Packed);
    assert ParseCrowd(Usual.Label()) == Some(Usual);
    assert ParseCompanions(UpperGrades.Label()) == Some(UpperGrades);
  }

  /**
   * The verdict with the crowd bump taken off the thresholds, as the comment
   * in evaluate intends: the same raw total is judged more strictly on a
   * more crowded day.
   */
  function IntendedPageVerdict(baseTotal: int, c: Crowd, group: string, w: WaitTolerance, happyEntry: bool, vacap: bool): Verdict {
    Classify(CorrectedTotal(baseTotal, c.Label(), group, happyEntry, vacap), IntendedThresholds(w, c))
  }

  /** For a non-negative raw total, a more crowded day never lowers the corrected total. */
  lemma CorrectedTotalGrowsWithCrowd(baseTotal: int, c1: Crowd, c2: Crowd, group: string, happyEntry: bool, vacap: bool)
    requires baseTotal >= 0 && c1.Level() <= c2.Level()
    ensures CorrectedTotal(baseTotal, c1.Label(), group, happyEntry, vacap)
         <= CorrectedTotal(baseTotal, c2.Label(), group, happyEntry, vacap)
  {
    var cm1, cm2 := CrowdModifier(c1.Label()), CrowdModifier(c2.Label());
    var gm, pm := ChildModifier(group), PerkFactor(happyEntry, vacap);
    if c1.Level() < c2.Level() {
      CrowdModifierRises(c1, c2);
    } else {
      assert c1 == c2;
    }
    ProductGrowsInFirst(cm1, cm2, gm, pm);
    CombinedFactorIsProduct(c1.Label(), group, happyEntry, vacap);
    CombinedFactorIsProduct(c2.Label(), group, happyEntry, vacap);
    ScaleGrowsWithFactor(baseTotal, CombinedFactor(c1.Label(), group, happyEntry, vacap),
                         CombinedFactor(c2.Label(), group, happyEntry, vacap));
  }

  /**
   * With the bump taken off, a more crowded day never gets a milder verdict
   * for the same raw total and the same other conditions.
   */
  lemma IntendedBusierDayNeverMilder(baseTotal: int, c1: Crowd, c2: Crowd, group: string, w: WaitTolerance, happyEntry: bool, vacap: bool)
    requires baseTotal >= 0 && c1.Level() <= c2.Level()
    ensures IntendedPageVerdict(baseTotal, c1, group, w, happyEntry, vacap).Severity()
         <= IntendedPageVerdict(baseTotal, c2, group, w, happyEntry, vacap).Severity()
  {
    CorrectedTotalGrowsWithCrowd(baseTotal, c1, c2, group, happyEntry, vacap);
    IntendedThresholdsFall(w, c1, c2);
    StricterThresholdsNeverMilder(CorrectedTotal(baseTotal, c1.Label(), group, happyEntry, vacap),
                                  CorrectedTotal(baseTotal, c2.Label(), group, happyEntry, vacap),
                                  IntendedThresholds(w, c1), IntendedThresholds(w, c2));
  }

  /** On the example above, the intended thresholds judge the sold-out-level day harsher. */
  lemma IntendedExampleIsHarsher()
    ensures IntendedPageVerdict(24, Usual, UpperGrades.Label(), Upto30, false, false) == Standard
    ensures IntendedPageVerdict(24, Packed, UpperGrades.Label(), Upto30, false, false) == SomewhatHard
  {
    assert ParseCrowd(Packed.Label()) == Some(Packed);
    assert ParseCrowd(Usual.Label()) == Some(Usual);
    assert ParseCompanions(UpperGrades.Label()) == Some(UpperGrades);
  }
}
