/** The recruiter's card for one candidate: selection border and checkbox,
    the match colour, the recommendation box and the skill sections. */
module CandidateMatchCard {
  import opened Wrappers
  import opened AppTypes
  import JobMatchCard
  import CandidateComparisonView

  /** `getMatchColor`, written out again in this component. */
  function MatchColor(percentage: int): (c: string)
    ensures c == JobMatchCard.GreenBadge <==> percentage >= 80
    ensures c == JobMatchCard.BlueBadge <==> 60 <= percentage < 80
    ensures c == JobMatchCard.OrangeBadge <==> percentage < 60
  {
    if percentage >= 80 then "text-green-600 bg-green-100"
    else if percentage >= 60 then "text-blue-600 bg-blue-100"
    else "text-orange-600 bg-orange-100"
  }

  /** Both cards colour a match the same way. */
  lemma MatchColorAgrees(percentage: int)
    ensures MatchColor(percentage) == JobMatchCard.MatchColor(percentage)
  {
  }

  const HighlyRecommended: string := "\U{2705} Highly recommended - Ready to start immediately"
  const GoodCandidate: string := "\U{1F44D} Good candidate - May need brief onboarding"
  const NeedsDevelopment: string := "\U{26A0}\U{FE0F} Skills need development - Consider for junior roles"

  function RecommendationBackground(readinessScore: int): (b: string)
    ensures b == "bg-green-50" <==> readinessScore >= 85
    ensures b == "bg-blue-50" <==> 70 <= readinessScore < 85
    ensures b == "bg-orange-50" <==> readinessScore < 70
  {
    if readinessScore >= 85 then "bg-green-50"
    else if readinessScore >= 70 then "bg-blue-50"
    else "bg-orange-50"
  }

  function RecommendationMessage(readinessScore: int): (m: string)
    ensures m == HighlyRecommended <==> readinessScore >= 85
    ensures m == GoodCandidate <==> 70 <= readinessScore < 85
    ensures m == NeedsDevelopment <==> readinessScore < 70
  {
    if readinessScore >= 85 then HighlyRecommended
    else if readinessScore >= 70 then GoodCandidate
    else NeedsDevelopment
  }

  /** The box colour and its message use the same bands, so each colour goes
      with exactly one message; and they are the same bands as the
      comparison view's recommendation row. */
  lemma RecommendationAgrees(a: int, b: int)
    ensures RecommendationBackground(a) == RecommendationBackground(b)
            <==> RecommendationMessage(a) == RecommendationMessage(b)
    ensures RecommendationMessage(a) == RecommendationMessage(b)
            <==> CandidateComparisonView.Recommendation(a) == CandidateComparisonView.Recommendation(b)
    ensures RecommendationMessage(a) == HighlyRecommended <==> a >= 85
    ensures RecommendationMessage(a) == GoodCandidate <==> 70 <= a < 85
  {
  }

  const CardBase: string := "hover:shadow-lg transition-shadow "
  const SelectedBorder: string := "border-blue-500 border-2"

  datatype SkillSection = SkillSection(count: nat, skills: seq<string>)

  datatype CandidateCardView = CandidateCardView(
    cardClass: string,
    checkbox: Option<bool>,
    matchBadge: string,
    background: string,
    message: string,
    matchingCount: nat,
    missing: Option<SkillSection>)

  /** The card for a candidate; `isSelected` absent is `false`, and
      `hasToggle` says whether `onToggleSelect` was passed. */
  function Render(c: CandidateMatch, isSelected: bool, hasToggle: bool): (v: CandidateCardView)
    ensures v.cardClass == CardBase + (if isSelected then SelectedBorder else "")
    ensures v.checkbox.Some? <==> hasToggle
    ensures v.checkbox.Some? ==> v.checkbox.value == isSelected
    ensures v.matchBadge == JobMatchCard.MatchColor(c.matchPercentage)
    ensures v.background == RecommendationBackground(c.readinessScore)
    ensures v.message == RecommendationMessage(c.readinessScore)
    ensures v.matchingCount == |c.strengthAreas|
    ensures v.missing.Some? <==> |c.missingSkills| > 0
    ensures v.missing.Some? ==> v.missing.value == SkillSection(|c.missingSkills|, c.missingSkills)
  {
    MatchColorAgrees(c.matchPercentage);
    CandidateCardView(
      CardBase + (if isSelected then SelectedBorder else ""),
      if hasToggle then Some(isSelected) else None,
      MatchColor(c.matchPercentage),
      RecommendationBackground(c.readinessScore),
      RecommendationMessage(c.readinessScore),
      |c.strengthAreas|,
      if |c.missingSkills| > 0 then Some(SkillSection(|c.missingSkills|, c.missingSkills)) else None)
  }

  /** The border class is present exactly on a selected card. */
  lemma SelectedBorderIffSelected(c: CandidateMatch, isSelected: bool, hasToggle: bool)
    ensures var cls := Render(c, isSelected, hasToggle).cardClass;
            isSelected <==> cls == CardBase + SelectedBorder
  {
    var cls := Render(c, isSelected, hasToggle).cardClass;
    if !isSelected {
      assert |cls| != |CardBase + SelectedBorder|;
    }
  }
}
