/** A drug for sale: its validated construction, its read-only accessors, the
    catalog of known kinds of drug, and how one day ages a drug through the rule
    it is bound to. */
module Drugs {
  import opened Rules

  datatype Option<T> = None | Some(value: T)

  /** Why a drug could not be constructed. */
  datatype DrugError =
    | EmptyName
    | BenefitBelowZero(benefit: int)
    | BenefitAboveMax(benefit: int, max: int)

  datatype Result<T> = Ok(value: T) | Err(error: DrugError)

  /** A drug instance. Its fields are never reassigned after construction; the
      accessors are the only way to read them. */
  datatype Drug = Drug(name: string, expiresIn: Expiry, benefit: int, rule: Rule) {

    function GetName(): string {
      name
    }

    function GetExpiry(): Expiry {
      expiresIn
    }

    function GetBenefit(): int {
      benefit
    }

    /** What construction guarantees of every drug. */
    predicate Valid() {
      name != "" && 0 <= benefit <= MaxBenefit
    }
  }

  /** Builds a drug, checking the name first, then the lower and the upper bound of
      the benefit; the first failed check decides the error. The countdown is not
      checked. A `None` name stands for a missing (null) one. */
  function New(name: Option<string>, expiresIn: Expiry, benefit: int, rule: Rule): (r: Result<Drug>)
    ensures r.Ok? <==> name.Some? && name.value != "" && 0 <= benefit <= MaxBenefit
    ensures r.Ok? ==> r.value.Valid()
    ensures r.Ok? ==> r.value.GetName() == name.value && r.value.GetExpiry() == expiresIn
                      && r.value.GetBenefit() == benefit && r.value.rule == rule
    ensures (name.None? || name.value == "") ==> r == Err(EmptyName)
    ensures name.Some? && name.value != "" && benefit < 0 ==> r == Err(BenefitBelowZero(benefit))
    ensures name.Some? && name.value != "" && benefit > MaxBenefit ==> r == Err(BenefitAboveMax(benefit, MaxBenefit))
  {
    if name.None? || name.value == "" then Err(EmptyName)
    else if benefit < 0 then Err(BenefitBelowZero(benefit))
    else if benefit > MaxBenefit then Err(BenefitAboveMax(benefit, MaxBenefit))
    else Ok(Drug(name.value, expiresIn, benefit, rule))
  }

  /** An entry of the catalog of known kinds of drug. */
  datatype DrugData = DrugData(rule: Rule, name: string)

  /** The catalog of known kinds of drug, keyed as in the source. */
  const Catalog: map<string, DrugData> := map[
    "doliprane" := DrugData(Standard, "Doliprane"),
    "herbalTea" := DrugData(HerbalTea, "Herbal Tea"),
    "fervex" := DrugData(Fervex, "Fervex"),
    "magicPill" := DrugData(MagicPill, "Magic Pill")
  ]

  /** The catalog has four entries, one per rule, each with a non-empty name, so any
      entry builds a drug exactly when the benefit is in range. */
  lemma CatalogEntriesBuild(key: string, expiresIn: Expiry, benefit: int)
    requires key in Catalog
    ensures |Catalog| == 4
    ensures Catalog[key].name != ""
    ensures New(Some(Catalog[key].name), expiresIn, benefit, Catalog[key].rule).Ok? <==> 0 <= benefit <= MaxBenefit
    ensures (set k | k in Catalog :: Catalog[k].rule) == {Standard, HerbalTea, Fervex, MagicPill}
  {
    assert Catalog.Keys == {"doliprane", "herbalTea", "fervex", "magicPill"};
  }

  /** One day for one drug: the countdown goes down by one (a magic pill's never
      moves), then the drug's rule, evaluated on the new countdown, gives the change
      in benefit. */
  function Aged(d: Drug): (a: Drug)
    ensures a.name == d.name && a.rule == d.rule
    ensures d.Valid() ==> a.Valid()
    ensures d.rule == MagicPill || d.expiresIn.Never? ==> a.expiresIn == d.expiresIn
    ensures d.rule != MagicPill && d.expiresIn.Days? ==> a.expiresIn == Days(d.expiresIn.n - 1)
    ensures a.benefit == d.benefit + d.rule.Delta(d.benefit, a.expiresIn)
  {
    var expiresIn := if d.rule == MagicPill then d.expiresIn else d.expiresIn.Decrement();
    Drug(d.name, expiresIn, d.benefit + d.rule.Delta(d.benefit, expiresIn), d.rule)
  }

  /** One day with fervex bound to its rule as written: it agrees with `Aged` except
      for a fervex drug at the maximum whose new countdown exceeds five days. */
  function AgedAsWritten(d: Drug): (a: Drug)
    ensures a.name == d.name && a.rule == d.rule && a.expiresIn == Aged(d).expiresIn
    ensures a == Aged(d) <==>
              d.rule != Fervex || d.benefit < MaxBenefit || a.expiresIn.Below(0) || a.expiresIn.AtMost(5)
  {
    var expiresIn := if d.rule == MagicPill then d.expiresIn else d.expiresIn.Decrement();
    Drug(d.name, expiresIn, d.benefit + d.rule.DeltaAsWritten(d.benefit, expiresIn), d.rule)
  }

  /** The drug after `days` days. Every day keeps the drug valid. */
  function AgedBy(d: Drug, days: nat): (a: Drug)
    ensures a.name == d.name && a.rule == d.rule
    ensures d.Valid() ==> a.Valid()
  {
    if days == 0 then d else Aged(AgedBy(d, days - 1))
  }

  /** The countdown of a drug that is not a magic pill drops by exactly one a day. */
  lemma {:induction false} CountdownDropsDaily(d: Drug, days: nat)
    requires d.rule != MagicPill && d.expiresIn.Days?
    ensures AgedBy(d, days).expiresIn == Days(d.expiresIn.n - days)
  {
    if days > 0 {
      CountdownDropsDaily(d, days - 1);
    }
  }

  /** A magic pill never changes, however many days pass. */
  lemma {:induction false} MagicPillNeverChanges(d: Drug, days: nat)
    requires d.rule == MagicPill
    ensures AgedBy(d, days) == d
  {
    if days > 0 {
      MagicPillNeverChanges(d, days - 1);
    }
  }

  /** A standard drug's benefit never rises and a herbal tea's never falls. */
  lemma {:induction false} MonotoneVariants(d: Drug, days: nat)
    requires d.Valid()
    ensures d.rule == Standard ==> AgedBy(d, days).benefit <= d.benefit
    ensures d.rule == HerbalTea ==> AgedBy(d, days).benefit >= d.benefit
  {
    if days > 0 {
      MonotoneVariants(d, days - 1);
    }
  }

  /** A fervex drug's benefit is 0 after every day that leaves its countdown
      negative, whatever the benefit was. */
  lemma FervexZeroAfterExpiry(d: Drug, days: nat)
    requires d.rule == Fervex && d.expiresIn.Days? && 0 < days && d.expiresIn.n < days
    ensures AgedBy(d, days).benefit == 0
  {
    CountdownDropsDaily(d, days - 1);
  }

  /** The successive (countdown, benefit) pairs of a drug over `days` days,
      starting with its current state. */
  function History(d: Drug, days: nat): (h: seq<(Expiry, int)>)
    decreases days
    ensures |h| == days + 1
    ensures h[0] == (d.expiresIn, d.benefit)
  {
    if days == 0 then [(d.expiresIn, d.benefit)]
    else [(d.expiresIn, d.benefit)] + History(Aged(d), days - 1)
  }

  /** A valid drug's benefit is within [0, MaxBenefit] in every snapshot of its
      history. */
  lemma {:induction false} HistoryStaysInRange(d: Drug, days: nat)
    requires d.Valid()
    decreases days
    ensures forall i :: 0 <= i < |History(d, days)| ==> 0 <= History(d, days)[i].1 <= MaxBenefit
  {
    if days > 0 {
      HistoryStaysInRange(Aged(d), days - 1);
      var h := History(d, days);
      forall i | 0 <= i < |h| ensures 0 <= h[i].1 <= MaxBenefit {
        if i > 0 {
          assert h[i] == History(Aged(d), days - 1)[i - 1];
        }
      }
    }
  }

  /** The history of a drug aged with fervex bound to its rule as written. */
  function HistoryAsWritten(d: Drug, days: nat): (h: seq<(Expiry, int)>)
    decreases days
    ensures |h| == days + 1
    ensures h[0] == (d.expiresIn, d.benefit)
  {
    if days == 0 then [(d.expiresIn, d.benefit)]
    else [(d.expiresIn, d.benefit)] + HistoryAsWritten(AgedAsWritten(d), days - 1)
  }

  /** A fervex drug with a finite countdown that cannot reach the maximum while more
      than five days would be left after a day: it gains at most two a day until then. */
  predicate SurgeHeadroom(d: Drug) {
    d.rule == Fervex && d.expiresIn.Days?
    && (d.expiresIn.n <= 6 || d.benefit + 2 * (d.expiresIn.n - 6) < MaxBenefit)
  }

  /** A valid fervex drug with headroom has the same history under the rule as
      written as under the corrected rule. */
  lemma {:induction false} FervexAsWrittenAgreesWithHeadroom(d: Drug, days: nat)
    requires d.Valid() && SurgeHeadroom(d)
    decreases days
    ensures HistoryAsWritten(d, days) == History(d, days)
  {
    if days > 0 {
      assert AgedAsWritten(d) == Aged(d);
      FervexAsWrittenAgreesWithHeadroom(Aged(d), days - 1);
    }
  }

  /** Ageing a drug one day and then `days` more is ageing it `days + 1` days. */
  lemma {:induction false} AgedByShift(d: Drug, days: nat)
    ensures AgedBy(Aged(d), days) == AgedBy(d, days + 1)
  {
    if days > 0 {
      AgedByShift(d, days - 1);
    }
  }

  /** Entry `i` of a history is the state of the drug after `i` days. */
  lemma {:induction false} HistoryRecordsEachDay(d: Drug, days: nat, i: nat)
    requires i <= days
    decreases i
    ensures History(d, days)[i] == (AgedBy(d, i).expiresIn, AgedBy(d, i).benefit)
  {
    if i > 0 {
      HistoryRecordsEachDay(Aged(d), days - 1, i - 1);
      AgedByShift(d, i - 1);
    }
  }
}
