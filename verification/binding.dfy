/** The two classifications of the predicted binding free energy ΔG
    (kcal/mol, more negative is stronger): the binding-strength band and the
    overall candidate recommendation that also weighs drug-likeness. */
module Binding {

  const StrongCutoff: real := -9.0
  const ModerateCutoff: real := -7.0

  datatype Strength = Strong | Moderate | Weak

  /** First-match bands with strict `<` cutpoints: -9 itself is Moderate and
      -7 itself is Weak. */
  function BindingStrength(dg: real): (s: Strength)
    ensures s == Strong <==> dg < -9.0
    ensures s == Moderate <==> -9.0 <= dg < -7.0
    ensures s == Weak <==> -7.0 <= dg
  {
    if dg < StrongCutoff then Strong
    else if dg < ModerateCutoff then Moderate
    else Weak
  }

  datatype Recommendation = Excellent | Promising | ModerateCandidate | Poor

  /** The overall assessment, first match in this order: strong and drug-like,
      strong but not drug-like, below -7 and drug-like, anything else. */
  function Recommend(dg: real, drugLike: bool): (r: Recommendation)
    ensures r == Excellent <==> dg < -9.0 && drugLike
    ensures r == Promising <==> dg < -9.0 && !drugLike
    ensures r == ModerateCandidate <==> -9.0 <= dg < -7.0 && drugLike
    ensures r == Poor <==> -7.0 <= dg || (-9.0 <= dg && !drugLike)
  {
    if dg < StrongCutoff && drugLike then Excellent
    else if dg < StrongCutoff && !drugLike then Promising
    else if dg < ModerateCutoff && drugLike then ModerateCandidate
    else Poor
  }

  /** The recommendation read off the strength band. */
  function RecommendFor(s: Strength, drugLike: bool): Recommendation {
    match s
    case Strong => if drugLike then Excellent else Promising
    case Moderate => if drugLike then ModerateCandidate else Poor
    case Weak => Poor
  }

  /** The recommendation is a function of the strength band and the
      drug-likeness flag only. */
  lemma RecommendationFactorsThroughStrength(dg: real, drugLike: bool)
    ensures Recommend(dg, drugLike) == RecommendFor(BindingStrength(dg), drugLike)
  {
  }

  /** The two classifications never disagree. */
  lemma RecommendationConsistentWithStrength(dg: real, drugLike: bool)
    ensures Recommend(dg, drugLike) in {Excellent, Promising} ==> BindingStrength(dg) == Strong
    ensures Recommend(dg, drugLike) == ModerateCandidate ==> BindingStrength(dg) == Moderate
    ensures BindingStrength(dg) == Weak ==> Recommend(dg, drugLike) == Poor
    ensures !drugLike ==> Recommend(dg, drugLike) in {Promising, Poor}
  {
  }

  /** Strong is ranked above Moderate, above Weak. */
  function StrengthRank(s: Strength): nat {
    match s
    case Strong => 2
    case Moderate => 1
    case Weak => 0
  }

  /** A more negative ΔG never yields a weaker band. */
  lemma StrengthMonotone(dg1: real, dg2: real)
    requires dg1 <= dg2
    ensures StrengthRank(BindingStrength(dg2)) <= StrengthRank(BindingStrength(dg1))
  {
  }
}
