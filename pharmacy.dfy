/** The legacy pharmacy: drug records with public, mutable fields, and a daily pass
    that ages each record in place by branching on its name. */
module LegacyPharmacy {
  import opened Rules
  import Drugs

  /** A drug record; the pharmacy assigns its countdown and benefit in place. */
  class Drug {
    var name: string
    var expiresIn: Expiry
    var benefit: int

    constructor (name: string, expiresIn: Expiry, benefit: int)
      ensures this.name == name && this.expiresIn == expiresIn && this.benefit == benefit
    {
      this.name := name;
      this.expiresIn := expiresIn;
      this.benefit := benefit;
    }
  }

  /** The daily gain of a fervex record, read from its countdown BEFORE that day's
      decrement: one, one more below 11 days, and one more below 6 days. */
  function LegacySurge(expiresIn: Expiry): nat {
    if expiresIn.Below(6) then 3 else if expiresIn.Below(11) then 2 else 1
  }

  /** The (countdown, benefit) of a record with the given name after one legacy day.
      "Magic Pill" never changes; every other name loses a day of countdown.
      "Herbal Tea" gains towards 50, twice as fast once the new countdown is
      negative; "Fervex" surges towards 50 and is 0 once the new countdown is
      negative; any other name decays towards 0, twice as fast once expired. A
      benefit already outside [0, 50] on the side it moves towards is left alone. */
  function LegacyDay(name: string, expiresIn: Expiry, benefit: int): (r: (Expiry, int))
    ensures name == "Herbal Tea" ==> r.1 >= benefit
    ensures name != "Herbal Tea" && name != "Fervex" ==> r.1 <= benefit
    ensures name != "Herbal Tea" && name != "Fervex" && benefit >= 0 ==> r.1 >= 0
    ensures name == "Fervex" && expiresIn.Below(1) ==> r.1 == 0
    ensures name == "Fervex" && !expiresIn.Below(1) ==> r.1 >= benefit
  {
    if name == "Magic Pill" then (expiresIn, benefit)
    else
      var e := expiresIn.Decrement();
      if name == "Herbal Tea" then
        (e, if benefit >= 50 then benefit else Min(50, benefit + DailyRate(e)))
      else if name == "Fervex" then
        (e, if e.Below(0) then 0 else if benefit >= 50 then benefit else Min(50, benefit + LegacySurge(expiresIn)))
      else
        (e, if benefit <= 0 then benefit else Max(0, benefit - DailyRate(e)))
  }

  class Pharmacy {
    var drugs: seq<Drug>

    constructor (drugs: seq<Drug>)
      ensures this.drugs == drugs
    {
      this.drugs := drugs;
    }

    /** Ages every record by one day, in order and in place, and returns the same
        list. Each record changes only in its countdown and benefit, and only as
        its own name, countdown and benefit dictate. */
    method UpdateBenefitValue() returns (result: seq<Drug>)
      requires forall i, j :: 0 <= i < j < |drugs| ==> drugs[i] != drugs[j]
      modifies set i | 0 <= i < |drugs| :: drugs[i]
      ensures result == drugs
      ensures forall k :: 0 <= k < |drugs| ==> drugs[k].name == old(drugs[k].name)
      ensures forall k :: 0 <= k < |drugs| ==>
        (drugs[k].expiresIn, drugs[k].benefit) == LegacyDay(drugs[k].name, old(drugs[k].expiresIn), old(drugs[k].benefit))
    {
      var i := 0;
      while i < |drugs|
        invariant 0 <= i <= |drugs|
        invariant forall k :: 0 <= k < |drugs| ==> drugs[k].name == old(drugs[k].name)
        invariant forall k :: 0 <= k < i ==>
          (drugs[k].expiresIn, drugs[k].benefit) == LegacyDay(drugs[k].name, old(drugs[k].expiresIn), old(drugs[k].benefit))
        invariant forall k :: i <= k < |drugs| ==>
          drugs[k].expiresIn == old(drugs[k].expiresIn) && drugs[k].benefit == old(drugs[k].benefit)
      {
        var d := drugs[i];
        // Herbal Tea and Fervex gain benefit; every other name loses it.
        if d.name != "Herbal Tea" && d.name != "Fervex" {
          if d.benefit > 0 {
            if d.name != "Magic Pill" {
              d.benefit := d.benefit - 1;
            }
          }
        } else {
          if d.benefit < 50 {
            d.benefit := d.benefit + 1;
            if d.name == "Fervex" {
              if d.expiresIn.Below(11) {
                if d.benefit < 50 {
                  d.benefit := d.benefit + 1;
                }
              }
              if d.expiresIn.Below(6) {
                if d.benefit < 50 {
                  d.benefit := d.benefit + 1;
                }
              }
            }
          }
        }
        if d.name != "Magic Pill" {
          d.expiresIn := d.expiresIn.Decrement();
        }
        // Past expiry.
        if d.expiresIn.Below(0) {
          if d.name != "Herbal Tea" {
            if d.name != "Fervex" {
              if d.benefit > 0 {
                if d.name != "Magic Pill" {
                  d.benefit := d.benefit - 1;
                }
              }
            } else {
              d.benefit := d.benefit - d.benefit;
            }
          } else {
            if d.benefit < 50 {
              d.benefit := d.benefit + 1;
            }
          }
        }
        i := i + 1;
      }
      result := drugs;
    }
  }

  /** A legacy day keeps a benefit within [0, 50], and moves the countdown of every
      record but a magic pill down by exactly one. */
  lemma LegacyDayKeepsRange(name: string, expiresIn: Expiry, benefit: int)
    requires 0 <= benefit <= 50
    ensures 0 <= LegacyDay(name, expiresIn, benefit).1 <= 50
    ensures name == "Magic Pill" ==> LegacyDay(name, expiresIn, benefit) == (expiresIn, benefit)
    ensures name != "Magic Pill" ==> LegacyDay(name, expiresIn, benefit).0 == expiresIn.Decrement()
  {
  }

  /** The (countdown, benefit) the rule-based model gives after one day. */
  function RuleDay(name: string, rule: Rule, expiresIn: Expiry, benefit: int): (Expiry, int) {
    var a := Drugs.Aged(Drugs.Drug(name, expiresIn, benefit, rule));
    (a.expiresIn, a.benefit)
  }

  /** For a standard drug, a herbal tea and a magic pill, the legacy name-based day
      and the rule-based day agree on every state that construction allows. */
  lemma LegacyAgreesWithRules(name: string, expiresIn: Expiry, benefit: int)
    requires 0 <= benefit <= MaxBenefit
    ensures name != "Herbal Tea" && name != "Fervex" && name != "Magic Pill" ==>
              LegacyDay(name, expiresIn, benefit) == RuleDay(name, Standard, expiresIn, benefit)
    ensures LegacyDay("Herbal Tea", expiresIn, benefit) == RuleDay("Herbal Tea", HerbalTea, expiresIn, benefit)
    ensures LegacyDay("Magic Pill", expiresIn, benefit) == RuleDay("Magic Pill", MagicPill, expiresIn, benefit)
  {
  }

  /** For fervex, the legacy day reads its thresholds on the countdown before the
      decrement and the rule-based day (with the corrected fervex rule) after it:
      they agree except with exactly 6 or 11 days left, where the rule-based day
      gains one unit more, up to 50. */
  lemma LegacyFervexLagsAtThresholds(expiresIn: Expiry, benefit: int)
    requires 0 <= benefit <= MaxBenefit
    ensures expiresIn != Days(6) && expiresIn != Days(11) ==>
              LegacyDay("Fervex", expiresIn, benefit) == RuleDay("Fervex", Fervex, expiresIn, benefit)
    ensures expiresIn == Days(6) || expiresIn == Days(11) ==>
              RuleDay("Fervex", Fervex, expiresIn, benefit).1 == Min(MaxBenefit, LegacyDay("Fervex", expiresIn, benefit).1 + 1)
  {
  }

  /** The (countdown, benefit) of a record after `days` successive passes of the
      pharmacy. A benefit within [0, 50] stays within it, a magic pill never
      changes, and every other countdown drops by one per pass. */
  function LegacyDays(name: string, expiresIn: Expiry, benefit: int, days: nat): (r: (Expiry, int))
    ensures 0 <= benefit <= 50 ==> 0 <= r.1 <= 50
    ensures name == "Magic Pill" ==> r == (expiresIn, benefit)
    ensures name != "Magic Pill" && expiresIn.Days? ==> r.0 == Days(expiresIn.n - days)
  {
    if days == 0 then (expiresIn, benefit)
    else
      var (e, b) := LegacyDays(name, expiresIn, benefit, days - 1);
      LegacyDay(name, e, b)
  }

  /** Over any number of days, the legacy passes and the rule-based days agree for
      a standard drug, a herbal tea and a magic pill whose benefit is in range. */
  lemma {:induction false} LegacyAgreesWithRulesOverDays(name: string, rule: Rule, expiresIn: Expiry, benefit: int, days: nat)
    requires 0 <= benefit <= MaxBenefit
    requires || (rule == Standard && name != "Herbal Tea" && name != "Fervex" && name != "Magic Pill")
             || (rule == HerbalTea && name == "Herbal Tea")
             || (rule == MagicPill && name == "Magic Pill")
    ensures var a := Drugs.AgedBy(Drugs.Drug(name, expiresIn, benefit, rule), days);
            LegacyDays(name, expiresIn, benefit, days) == (a.expiresIn, a.benefit)
  {
    if days > 0 {
      LegacyAgreesWithRulesOverDays(name, rule, expiresIn, benefit, days - 1);
      var p := Drugs.AgedBy(Drugs.Drug(name, expiresIn, benefit, rule), days - 1);
      assert p == Drugs.Drug(name, p.expiresIn, p.benefit, rule);
      LegacyAgreesWithRules(name, p.expiresIn, p.benefit);
    }
  }

  /** The fervex sequence the drug tests expect is not the legacy one: two legacy days
      from 12 days and benefit 20 give benefit 22, the rule-based days give 23. */
  lemma LegacyFervexMissesTestSequence()
    ensures LegacyDay("Fervex", Days(12), 20) == (Days(11), 21)
    ensures LegacyDay("Fervex", Days(11), 21) == (Days(10), 22)
    ensures Drugs.History(Drugs.Drug("Fervex", Days(12), 20, Fervex), 2)[2] == (Days(10), 23)
  {
  }

  /** The pharmacy test: one doliprane with 2 days left and benefit 3 comes back
      alone, with 1 day left and benefit 2. */
  method DolipraneScenario() returns (count: nat, expiresIn: Expiry, benefit: int)
    ensures count == 1 && expiresIn == Days(1) && benefit == 2
  {
    var doliprane := new Drug("Doliprane", Days(2), 3);
    var pharmacy := new Pharmacy([doliprane]);
    var drugs := pharmacy.UpdateBenefitValue();
    count, expiresIn, benefit := |drugs|, drugs[0].expiresIn, drugs[0].benefit;
  }
}
