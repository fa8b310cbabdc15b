/**
 * The three correction factors applied to the raw score: companions,
 * crowd level and the perks (Happy Entry, Vacation Package). Factors are
 * exact reals with the app's decimal constants.
 */
module Modifiers {
  import opened Wrappers
  import opened Conditions

  /** Age-group correction (child_modifier): a dictionary lookup that falls back to 1.00. */
  function ChildModifier(group: string): (m: real)
    ensures ParseCompanions(group) == None ==> m == 1.00
    ensures 1.00 <= m <= 1.18
    ensures m == 1.00 <==> ParseCompanions(group) in {None, Some(AdultsOnly)}
  {
    match ParseCompanions(group)
    case Some(AdultsOnly) => 1.00
    case Some(Preschool) => 1.18
    case Some(LowerGrades) => 1.12
    case Some(UpperGrades) => 1.06
    case None => 1.00
  }

  /** Crowd correction (crowd_modifier): a dictionary lookup that falls back to 1.00. */
  function CrowdModifier(crowd: string): (m: real)
    ensures ParseCrowd(crowd) == None ==> m == 1.00
    ensures 0.90 <= m <= 1.25
    ensures m < 1.00 <==> crowd == Quiet.Label()
    ensures m > 1.00 <==> crowd == Busy.Label() || crowd == Packed.Label()
  {
    match ParseCrowd(crowd)
    case Some(Quiet) => 0.90
    case Some(Usual) => 1.00
    case Some(Busy) => 1.15
    case Some(Packed) => 1.25
    case None => 1.00
  }

  /** The perk correction as a value: each perk held multiplies in its own discount. */
  function PerkFactor(happyEntry: bool, vacap: bool): (m: real)
    ensures !happyEntry && !vacap ==> m == 1.00
    ensures happyEntry && !vacap ==> m == 0.90
    ensures !happyEntry && vacap ==> m == 0.85
    ensures happyEntry && vacap ==> m == 0.90 * 0.85
    ensures 0.0 < m <= 1.00
  {
    (if happyEntry then 0.90 else 1.00) * (if vacap then 0.85 else 1.00)
  }

  /** perk_modifier: starts from 1.00 and multiplies in each perk the group holds. */
  method PerkModifier(happyEntry: bool, vacap: bool) returns (mod: real)
    ensures mod == PerkFactor(happyEntry, vacap)
  {
    mod := 1.00;
    if happyEntry {
      mod := mod * 0.90;
    }
    if vacap {
      mod := mod * 0.85;
    }
  }

  /** A more demanding group never gets a smaller factor; any child group weighs more than adults only. */
  lemma ChildModifierRises(g1: Companions, g2: Companions)
    requires g1.Burden() < g2.Burden()
    ensures ChildModifier(g1.Label()) < ChildModifier(g2.Label())
  {
  }

  /** A more crowded day always gets a strictly larger factor. */
  lemma CrowdModifierRises(c1: Crowd, c2: Crowd)
    requires c1.Level() < c2.Level()
    ensures CrowdModifier(c1.Label()) < CrowdModifier(c2.Label())
  {
  }

  /** Turning a perk on never makes the day harder: it strictly lowers the factor. */
  lemma PerkLowersFactor(happyEntry: bool, vacap: bool)
    ensures PerkFactor(true, vacap) < PerkFactor(false, vacap)
    ensures PerkFactor(happyEntry, true) < PerkFactor(happyEntry, false)
  {
  }
}
