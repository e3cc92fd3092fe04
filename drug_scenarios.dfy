/** The construction and day-by-day sequences that the drug tests expect, replayed
    on the model. */
module DrugScenarios {
  import opened Rules
  import opened Drugs

  /** Empty or missing names and out-of-range benefits are refused, each with its
      own error that carries the offending value. */
  lemma ConstructionRejects()
    ensures New(Some(""), Days(15), 30, Standard) == Err(EmptyName)
    ensures New(None, Days(15), 30, Standard) == Err(EmptyName)
    ensures New(Some("Fervex"), Days(15), -1, Fervex) == Err(BenefitBelowZero(-1))
    ensures New(Some("Fervex"), Days(15), MaxBenefit + 1, Fervex) == Err(BenefitAboveMax(51, 50))
  {
  }

  /** The boundary benefits and an unbounded countdown are accepted and read back. */
  lemma ConstructionAccepts()
    ensures New(Some("Fervex"), Days(30), 15, Fervex) == Ok(Drug("Fervex", Days(30), 15, Fervex))
    ensures New(Some("Fervex"), Days(30), 0, Fervex) == Ok(Drug("Fervex", Days(30), 0, Fervex))
    ensures New(Some("Fervex"), Days(30), MaxBenefit, Fervex) == Ok(Drug("Fervex", Days(30), 50, Fervex))
    ensures New(Some("Fervex"), Never, 15, Fervex) == Ok(Drug("Fervex", Never, 15, Fervex))
  {
  }

  /** A standard drug that is still above 0 when it expires. */
  lemma StandardDecaysPastExpiry()
    ensures History(Drug("dummy", Days(1), 5, Standard), 4)
         == [(Days(1), 5), (Days(0), 4), (Days(-1), 2), (Days(-2), 0), (Days(-3), 0)]
  {
  }

  /** A standard drug that reaches 0 before it expires. */
  lemma StandardReachesZeroEarly()
    ensures History(Drug("dummy", Days(2), 1, Standard), 3)
         == [(Days(2), 1), (Days(1), 0), (Days(0), 0), (Days(-1), 0)]
  {
  }

  /** A herbal tea that is still below the maximum when it expires. */
  lemma HerbalTeaGrowsPastExpiry()
    ensures History(Drug("dummy", Days(2), 44, HerbalTea), 5)
         == [(Days(2), 44), (Days(1), 45), (Days(0), 46), (Days(-1), 48), (Days(-2), 50), (Days(-3), 50)]
  {
  }

  /** A herbal tea that reaches the maximum before it expires. */
  lemma HerbalTeaReachesMaxEarly()
    ensures History(Drug("dummy", Days(2), 49, HerbalTea), 3)
         == [(Days(2), 49), (Days(1), 50), (Days(0), 50), (Days(-1), 50)]
  {
  }

  /** A magic pill with an unbounded countdown never moves. */
  lemma MagicPillStaysPut()
    ensures History(Drug("dummy", Never, 30, MagicPill), 2)
         == [(Never, 30), (Never, 30), (Never, 30)]
  {
  }

  /** The last five days of the first fervex sequence. */
  lemma FervexSurgesFromFiveDays()
    ensures History(Drug("dummy", Days(5), 34, Fervex), 6)
         == [(Days(5), 34), (Days(4), 37), (Days(3), 40), (Days(2), 43), (Days(1), 46), (Days(0), 49), (Days(-1), 0)]
  {
  }

  /** A fervex drug that never reaches the maximum, then drops to 0. */
  lemma FervexSurgesThenDrops()
    ensures History(Drug("dummy", Days(12), 20, Fervex), 13)
         == [(Days(12), 20), (Days(11), 21), (Days(10), 23), (Days(9), 25), (Days(8), 27),
             (Days(7), 29), (Days(6), 31), (Days(5), 34), (Days(4), 37), (Days(3), 40),
             (Days(2), 43), (Days(1), 46), (Days(0), 49), (Days(-1), 0)]
  {
    FervexSurgesFromFiveDays();
  }

  /** The last five days of the second fervex sequence. */
  lemma FervexCapsFromFiveDays()
    ensures History(Drug("dummy", Days(5), 44, Fervex), 6)
         == [(Days(5), 44), (Days(4), 47), (Days(3), 50), (Days(2), 50), (Days(1), 50), (Days(0), 50), (Days(-1), 0)]
  {
  }

  /** A fervex drug that reaches the maximum, holds it, then drops to 0. */
  lemma FervexCapsThenDrops()
    ensures History(Drug("dummy", Days(12), 30, Fervex), 13)
         == [(Days(12), 30), (Days(11), 31), (Days(10), 33), (Days(9), 35), (Days(8), 37),
             (Days(7), 39), (Days(6), 41), (Days(5), 44), (Days(4), 47), (Days(3), 50),
             (Days(2), 50), (Days(1), 50), (Days(0), 50), (Days(-1), 0)]
  {
    FervexCapsFromFiveDays();
  }

  /** The two tested fervex sequences come out the same with the rule as written,
      since neither reaches the maximum with more than five days left. */
  lemma FervexTestsHoldAsWritten()
    ensures HistoryAsWritten(Drug("dummy", Days(12), 20, Fervex), 13)
         == History(Drug("dummy", Days(12), 20, Fervex), 13)
    ensures HistoryAsWritten(Drug("dummy", Days(12), 30, Fervex), 13)
         == History(Drug("dummy", Days(12), 30, Fervex), 13)
  {
    FervexAsWrittenAgreesWithHeadroom(Drug("dummy", Days(12), 20, Fervex), 13);
    FervexAsWrittenAgreesWithHeadroom(Drug("dummy", Days(12), 30, Fervex), 13);
  }

  /** The fervex drug the construction test builds at the maximum, with 30 days
      left, reaches 51 after one day under the rule as written, while the corrected
      rule holds it at 50. */
  lemma FervexTestDrugOvershoots()
    ensures New(Some("Fervex"), Days(30), MaxBenefit, Fervex) == Ok(Drug("Fervex", Days(30), 50, Fervex))
    ensures AgedAsWritten(Drug("Fervex", Days(30), 50, Fervex)) == Drug("Fervex", Days(29), 51, Fervex)
    ensures Aged(Drug("Fervex", Days(30), 50, Fervex)) == Drug("Fervex", Days(29), 50, Fervex)
  {
  }

  /** The rule sees the countdown after that day's decrement: a herbal tea at 0 days
      gains two, though the rule applied to the countdown before the decrement would
      grant one. */
  lemma RuleSeesNewCountdown()
    ensures Aged(Drug("dummy", Days(0), 46, HerbalTea)) == Drug("dummy", Days(-1), 48, HerbalTea)
    ensures HerbalTeaDelta(46, Days(0)) == 1
  {
  }
}
