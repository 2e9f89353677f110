/** The job seeker's card for one job match: the match colour, the readiness
    message and the strengths, missing-skill and weak-skill sections. */
module JobMatchCard {
  import opened Wrappers
  import opened AppTypes
  import opened Ui

  const GreenBadge: string := "text-green-600 bg-green-100"
  const BlueBadge: string := "text-blue-600 bg-blue-100"
  const OrangeBadge: string := "text-orange-600 bg-orange-100"

  /** `getMatchColor`. */
  function MatchColor(percentage: int): (c: string)
    ensures c == GreenBadge <==> percentage >= 80
    ensures c == BlueBadge <==> 60 <= percentage < 80
    ensures c == OrangeBadge <==> percentage < 60
  {
    if percentage >= 80 then GreenBadge
    else if percentage >= 60 then BlueBadge
    else OrangeBadge
  }

  const ReadyToApply: string := "You are ready to apply!"
  const AlmostReady: string := "Almost ready - complete 1-2 courses"
  const BuildSkills: string := "Build more skills before applying"
  const FocusFundamentals: string := "Focus on fundamental skill development"

  /** `getReadinessMessage`. */
  function ReadinessMessage(score: int): (m: string)
    ensures m == ReadyToApply <==> score >= 85
    ensures m == AlmostReady <==> 70 <= score < 85
    ensures m == BuildSkills <==> 50 <= score < 70
    ensures m == FocusFundamentals <==> score < 50
  {
    if score >= 85 then ReadyToApply
    else if score >= 70 then AlmostReady
    else if score >= 50 then BuildSkills
    else FocusFundamentals
  }

  /** How encouraging a message is, from 0 (fundamentals) to 3 (ready). */
  function MessageRank(m: string): nat {
    if m == ReadyToApply then 3
    else if m == AlmostReady then 2
    else if m == BuildSkills then 1
    else 0
  }

  /** The four bands are inclusive at 85, 70 and 50, and a higher score
      never gets a less encouraging message. */
  lemma ReadinessMessageBands(a: int, b: int)
    requires a <= b
    ensures MessageRank(ReadinessMessage(a)) <= MessageRank(ReadinessMessage(b))
    ensures ReadinessMessage(a) == ReadyToApply <==> a >= 85
    ensures ReadinessMessage(a) == AlmostReady <==> 70 <= a < 85
    ensures ReadinessMessage(a) == BuildSkills <==> 50 <= a < 70
    ensures ReadinessMessage(a) == FocusFundamentals <==> a < 50
  {
  }

  /** The priority badge of a missing skill. */
  function GapBadge(g: SkillGap): (v: BadgeVariant)
    ensures v == Destructive <==> g.priority == Critical
    ensures v == Destructive || v == Outline
  {
    if g.priority == Critical then Destructive else Outline
  }

  /** A section with a counted heading and one row per entry. */
  datatype GapSection = GapSection(count: nat, rows: seq<SkillGap>)

  /** What the card shows, left to right and top to bottom. */
  datatype MatchCardView = MatchCardView(
    matchBadge: string,
    readinessMessage: string,
    strengthsCount: nat,
    strengths: seq<string>,
    missing: Option<GapSection>,
    missingBadges: seq<BadgeVariant>,
    weak: Option<GapSection>)

  function GapBadges(gs: seq<SkillGap>): (vs: seq<BadgeVariant>)
    ensures |vs| == |gs|
    ensures forall i :: 0 <= i < |gs| ==> vs[i] == GapBadge(gs[i])
  {
    if gs == [] then [] else [GapBadge(gs[0])] + GapBadges(gs[1..])
  }

  function Section(gs: seq<SkillGap>): (s: Option<GapSection>)
    ensures s.Some? <==> |gs| > 0
    ensures s.Some? ==> s.value.count == |gs| && s.value.rows == gs
  {
    if |gs| > 0 then Some(GapSection(|gs|, gs)) else None
  }

  function Render(m: SkillMatch): (v: MatchCardView)
    ensures v.matchBadge == MatchColor(m.matchPercentage)
    ensures v.readinessMessage == ReadinessMessage(m.readinessScore)
    ensures v.strengthsCount == |m.strengthAreas| && v.strengths == m.strengthAreas
    ensures v.missing.Some? <==> |m.missingSkills| > 0
    ensures v.missing.Some? ==> v.missing.value.count == |m.missingSkills|
    ensures v.weak.Some? <==> |m.weakSkills| > 0
    ensures v.weak.Some? ==> v.weak.value.count == |m.weakSkills|
    ensures v.missing == Section(m.missingSkills) && v.weak == Section(m.weakSkills)
    ensures v.missing.Some? ==> v.missing.value.rows == m.missingSkills
    ensures v.weak.Some? ==> v.weak.value.rows == m.weakSkills
    ensures |v.missingBadges| == |m.missingSkills|
    ensures forall i :: 0 <= i < |m.missingSkills| ==>
              (v.missingBadges[i] == Destructive <==> m.missingSkills[i].priority == Critical)
  {
    MatchCardView(MatchColor(m.matchPercentage), ReadinessMessage(m.readinessScore),
                  |m.strengthAreas|, m.strengthAreas,
                  Section(m.missingSkills), GapBadges(m.missingSkills), Section(m.weakSkills))
  }
}
