/** The per-variant update rules of a drug: each rule maps the drug's current
    benefit and expiry countdown to the amount to add to its benefit for one day.
    A rule only reads those two values; it never changes the drug. */
module Rules {

  /** The largest benefit a drug may have. drug_rules.js refers to this bound as
      `maxBenefit` without declaring it; its value is the one drug.js declares. */
  const MaxBenefit := 50

  /** Days left before a drug expires. `Never` stands for the unbounded countdown
      of a drug that does not expire: it is below no bound and stays unbounded when
      a day passes. */
  datatype Expiry = Days(n: int) | Never {

    /** The countdown is strictly below `k`. */
    predicate Below(k: int) {
      Days? && n < k
    }

    /** The countdown is at most `k`. */
    predicate AtMost(k: int) {
      Days? && n <= k
    }

    /** The countdown one day later. */
    function Decrement(): (e: Expiry)
      ensures Never? <==> e.Never?
      ensures Days? ==> e.n + 1 == n
    {
      if Days? then Days(n - 1) else Never
    }
  }

  function Min(a: int, b: int): int {
    if a <= b then a else b
  }

  function Max(a: int, b: int): int {
    if a >= b then a else b
  }

  /** How many units a standard or herbal-tea drug moves per day: twice as many
      once it has expired. */
  function DailyRate(expiry: Expiry): nat {
    if expiry.Below(0) then 2 else 1
  }

  /** How many units a fervex drug gains per day before it expires: 3 with five
      days or fewer left, 2 with ten days or fewer, 1 otherwise. */
  function SurgeRate(expiry: Expiry): nat {
    if expiry.AtMost(5) then 3 else if expiry.AtMost(10) then 2 else 1
  }

  /** `rules.standard`: loses one unit a day, two once expired, never below 0. */
  function StandardDelta(benefit: int, expiry: Expiry): (delta: int)
    ensures benefit == 0 ==> delta == 0
    ensures benefit >= 0 ==> benefit + delta == Max(0, benefit - DailyRate(expiry))
    ensures -2 <= delta <= 0 || benefit < 0
    ensures delta == -2 <==> expiry.Below(0) && benefit > 1
  {
    if benefit == 0 then 0
    else if expiry.Below(0) && benefit > 1 then -2
    else -1
  }

  /** `rules.herbalTea`: gains one unit a day, two once expired, never above the maximum. */
  function HerbalTeaDelta(benefit: int, expiry: Expiry): (delta: int)
    ensures benefit == MaxBenefit ==> delta == 0
    ensures benefit <= MaxBenefit ==> benefit + delta == Min(MaxBenefit, benefit + DailyRate(expiry))
    ensures 0 <= delta <= 2
    ensures delta == 2 <==> expiry.Below(0) && benefit < MaxBenefit - 1
  {
    if benefit == MaxBenefit then 0
    else if expiry.Below(0) && benefit < MaxBenefit - 1 then 2
    else 1
  }

  /** `rules.fervex` as it is written: drops to 0 once expired and surges as expiry
      approaches, but its last branch gains one unit even at the maximum. */
  function FervexDelta(benefit: int, expiry: Expiry): (delta: int)
    ensures expiry.Below(0) ==> benefit + delta == 0
    ensures !expiry.Below(0) && benefit < MaxBenefit ==> benefit + delta == Min(MaxBenefit, benefit + SurgeRate(expiry))
    ensures expiry.AtMost(5) && 0 <= expiry.n && benefit <= MaxBenefit ==> benefit + delta == Min(MaxBenefit, benefit + 3)
    ensures benefit == MaxBenefit && !expiry.Below(0) && !expiry.AtMost(5) ==> delta == 1
  {
    if expiry.Below(0) then -benefit
    else if expiry.AtMost(5) then
      if benefit <= MaxBenefit - 3 then 3 else MaxBenefit - benefit
    else if expiry.AtMost(10) && benefit < MaxBenefit - 1 then 2
    else 1
  }

  /** `rules.fervex` with its last branch clamped like the others, so that a drug at
      the maximum stays there. */
  function FervexDeltaClamped(benefit: int, expiry: Expiry): (delta: int)
    ensures expiry.Below(0) ==> benefit + delta == 0
    ensures !expiry.Below(0) && benefit <= MaxBenefit ==> benefit + delta == Min(MaxBenefit, benefit + SurgeRate(expiry))
  {
    if expiry.Below(0) then -benefit
    else if expiry.AtMost(5) then
      if benefit <= MaxBenefit - 3 then 3 else MaxBenefit - benefit
    else if expiry.AtMost(10) && benefit < MaxBenefit - 1 then 2
    else Min(1, MaxBenefit - benefit)
  }

  /** `rules.magicPill`: the benefit never changes. */
  function MagicPillDelta(benefit: int, expiry: Expiry): (delta: int)
    ensures benefit + delta == benefit
  {
    0
  }

  /** The fervex rule as written leaves the range [0, MaxBenefit] for exactly one
      kind of input: a drug already at the maximum with more than five days left. */
  lemma FervexLeavesRangeExactlyAtCeiling(benefit: int, expiry: Expiry)
    requires 0 <= benefit <= MaxBenefit
    ensures !(0 <= benefit + FervexDelta(benefit, expiry) <= MaxBenefit)
        <==> benefit == MaxBenefit && !expiry.Below(0) && !expiry.AtMost(5)
  {
  }

  /** A concrete input on which the fervex rule as written overshoots the maximum. */
  lemma FervexOvershoots()
    ensures MaxBenefit + FervexDelta(MaxBenefit, Days(7)) == MaxBenefit + 1
    ensures MaxBenefit + FervexDelta(MaxBenefit, Never) == MaxBenefit + 1
  {
  }

  /** The clamped fervex rule differs from the rule as written only at the maximum,
      with more than five days left. */
  lemma FervexClampedAgreesBelowCeiling(benefit: int, expiry: Expiry)
    ensures FervexDeltaClamped(benefit, expiry) == FervexDelta(benefit, expiry)
        <==> benefit < MaxBenefit || expiry.Below(0) || expiry.AtMost(5)
  {
  }

  /** The closed set of update rules a drug can be bound to. */
  datatype Rule = Standard | HerbalTea | Fervex | MagicPill {

    /** The benefit change this rule prescribes for one day. A benefit within
        [0, MaxBenefit] stays within it. */
    function Delta(benefit: int, expiry: Expiry): (delta: int)
      ensures 0 <= benefit <= MaxBenefit ==> 0 <= benefit + delta <= MaxBenefit
      ensures this == Standard && benefit >= 0 ==> delta <= 0
      ensures this == HerbalTea ==> delta >= 0
      ensures this == Fervex && expiry.Below(0) ==> benefit + delta == 0
      ensures this == MagicPill ==> delta == 0
    {
      match this
      case Standard => StandardDelta(benefit, expiry)
      case HerbalTea => HerbalTeaDelta(benefit, expiry)
      case Fervex => FervexDeltaClamped(benefit, expiry)
      case MagicPill => MagicPillDelta(benefit, expiry)
    }

    /** The benefit change with fervex bound to its rule as written. */
    function DeltaAsWritten(benefit: int, expiry: Expiry): (delta: int)
      ensures this != Fervex ==> delta == Delta(benefit, expiry)
      ensures delta == Delta(benefit, expiry) <==>
                this != Fervex || benefit < MaxBenefit || expiry.Below(0) || expiry.AtMost(5)
    {
      if this == Fervex then
        FervexClampedAgreesBelowCeiling(benefit, expiry);
        FervexDelta(benefit, expiry)
      else Delta(benefit, expiry)
    }
  }
}
